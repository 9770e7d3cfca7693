/**
 The metadata record of one session as `sessions/redishost/redis.go` keeps it: a Redis key
 holding the record, with an expiry instant, edited by optimistic read-modify-write.
 Redis itself is a versioned cell: every write bumps the version, and EXEC succeeds exactly
 when the version is the one seen at WATCH. A key that lapses is not a write.
 */
module RedisStore {
  import opened Wrappers

  type Time = int
  type Duration = int

  /** The fields the time arithmetic reads; `rest` stands for all the others. */
  datatype Record = Record(
    createdAt: Time,
    updatedAt: Time,
    lastAccess: Time,
    ttl: Duration,
    maxLifetime: Duration,
    rest: string)

  datatype Cell = Cell(value: Option<Record>, expiry: Option<Time>, version: nat)

  const MAX_TRIES: nat := 5

  /** What a GET at the given instant returns. */
  function Visible(c: Cell, now: Time): Option<Record> {
    if c.value.Some? && (c.expiry.None? || now < c.expiry.value) then c.value else None
  }

  /** SET with a duration: a duration that is not positive leaves the key without expiry. */
  function Write(c: Cell, m: Record, now: Time, d: Duration): Cell {
    Cell(Some(m), if d > 0 then Some(now + d) else None, c.version + 1)
  }

  function Remove(c: Cell): Cell {
    Cell(None, None, c.version + 1)
  }

  /** The caller's mutation function. */
  type Edit = Record -> Result<Record, string>

  datatype Kind = Mutate(edit: Edit) | Touch

  /** `NoKey` is Redis's own error, which a touch passes on untranslated. */
  datatype Failure = NotFound | NoKey | EditFailed(error: string)

  /** What a call reports when its GET finds nothing. */
  function Missing(kind: Kind): Failure {
    if kind.Touch? then NoKey else NotFound
  }

  /** The sliding TTL clamped by what is left of the lifetime, or nothing once it is spent. */
  function Refresh(m: Record, now: Time): Option<Duration> {
    if m.maxLifetime > 0 then
      var elapsed := now - m.createdAt;
      if elapsed >= m.maxLifetime then None
      else
        var left := m.maxLifetime - elapsed;
        Some(if left < m.ttl then left else m.ttl)
    else Some(m.ttl)
  }

  /** What one attempt intends to write, computed from the record it read at instant `now`. */
  function Prepare(kind: Kind, m: Record, now: Time): Result<(Record, Duration), Failure> {
    match kind
    case Touch =>
      (match Refresh(m, now)
       case None => Err(NotFound)
       case Some(d) => Ok((m.(lastAccess := now, updatedAt := now), d)))
    case Mutate(edit) =>
      (match edit(m)
       case Err(e) => Err(EditFailed(e))
       case Ok(m1) =>
         var m' := m1.(updatedAt := now);
         match Refresh(m', now)
         case None => Err(NotFound)
         case Some(d) => Ok((m', d)))
  }

  // ----- the time arithmetic of a single commit -----

  /** A record lives on for this long: no longer than its TTL, nor past its lifetime. */
  predicate Allowed(m: Record, now: Time, d: Duration) {
    d <= m.ttl && (m.maxLifetime > 0 ==> now + d <= m.createdAt + m.maxLifetime)
  }

  /**
   The refreshed duration is the longest one allowed, and there is none exactly when the
   lifetime is spent; the record carries the caller's edit and the new stamp and no other change.
   */
  lemma {:induction false} CommitIsLongestAllowed(kind: Kind, m: Record, now: Time, d: Duration)
    requires kind.Mutate? ==> kind.edit(m).Ok?
    ensures var edited := if kind.Touch? then m.(lastAccess := now) else kind.edit(m).value;
      match Prepare(kind, m, now)
      case Err(why) => why == NotFound && 0 < edited.maxLifetime <= now - edited.createdAt
      case Ok((next, best)) =>
        && next == edited.(updatedAt := now)
        && (Allowed(next, now, d) <==> d <= best)
        && !(0 < edited.maxLifetime <= now - edited.createdAt)
  {
  }

  /**
   A commit whose clock was read at `at` and whose EXEC lands at `now` keeps within the
   absolute lifetime exactly when the delay fits the slack the clamp left over.
   */
  lemma {:induction false} CommitWithinLifetime(m: Record, at: Time, now: Time)
    requires m.maxLifetime > 0 && m.ttl > 0 && at <= now && Refresh(m, at).Some?
    ensures Refresh(m, at).value > 0
    ensures now + Refresh(m, at).value <= m.createdAt + m.maxLifetime
       <==> now - at <= (var slack := m.createdAt + m.maxLifetime - at - m.ttl; if slack > 0 then slack else 0)
  {
  }

  // ----- the bounded retry loop, against a given environment -----

  datatype Outcome = Committed | Failed(why: Failure) | TxConflict | RetriesExceeded

  /** Another node's completed write to the key. */
  datatype Foreign = Foreign(m: Record, now: Time, d: Duration)

  function ApplyForeign(c: Cell, writes: seq<Foreign>): (r: Cell)
    ensures r.version == c.version + |writes|
    ensures writes == [] ==> r == c
    decreases |writes|
  {
    if writes == [] then c
    else ApplyForeign(Write(c, writes[0].m, writes[0].now, writes[0].d), writes[1..])
  }

  /** What others do while one attempt is between WATCH and EXEC, and when it runs. */
  datatype Gap = Gap(at: Time, exec: Time, writes: seq<Foreign>)

  function ApplyGaps(c: Cell, gaps: seq<Gap>): Cell {
    if gaps == [] then c else ApplyForeign(ApplyGaps(c, gaps[..|gaps| - 1]), gaps[|gaps| - 1].writes)
  }

  /** GET and the computation that follows it, in an attempt nobody disturbs. */
  function Attempt(kind: Kind, c: Cell, now: Time): Result<(Record, Duration), Failure> {
    match Visible(c, now)
    case None => Err(Missing(kind))
    case Some(m) => Prepare(kind, m, now)
  }

  /** The attempt computed what to write, and somebody else wrote before its EXEC. */
  ghost predicate Disturbed(edit: Edit, c: Cell, gaps: seq<Gap>, i: nat)
    requires i < |gaps|
  {
    gaps[i].writes != [] && Attempt(Mutate(edit), ApplyGaps(c, gaps[..i]), gaps[i].at).Ok?
  }

  class Key {
    var cell: Cell

    constructor (c: Cell)
      ensures cell == c
    {
      cell := c;
    }

    /** EXEC: write if and only if nothing was written since WATCH. */
    method Exec(watched: nat, m: Record, now: Time, d: Duration) returns (ok: bool)
      modifies this
      ensures ok == (old(cell).version == watched)
      ensures cell == if ok then Write(old(cell), m, now, d) else old(cell)
    {
      ok := cell.version == watched;
      if ok {
        cell := Write(cell, m, now, d);
      }
    }

    /** The caller's edit, the update stamp, and the refreshed duration. */
    method ApplyEdit(edit: Edit, m: Record, now: Time) returns (r: Result<(Record, Duration), Failure>)
      ensures r == Prepare(Mutate(edit), m, now)
    {
      var edited := edit(m);
      if edited.Err? {
        return Err(EditFailed(edited.error));
      }
      var next := edited.value.(updatedAt := now);
      var remaining := next.ttl;
      if next.maxLifetime > 0 {
        var elapsed := now - next.createdAt;
        if elapsed >= next.maxLifetime {
          return Err(NotFound);
        }
        var left := next.maxLifetime - elapsed;
        if left < remaining {
          remaining := left;
        }
      }
      r := Ok((next, remaining));
    }

    /**
     The retry loop. It commits on the first attempt nobody disturbs, on top of everything
     written before; it gives up only after five disturbed attempts, having written nothing.
     */
    method MutateSession(edit: Edit, gaps: seq<Gap>) returns (outcome: Outcome)
      requires |gaps| == 5
      modifies this
      ensures outcome == RetriesExceeded ==>
        && cell == ApplyGaps(old(cell), gaps)
        && forall i | 0 <= i < 5 :: Disturbed(edit, old(cell), gaps, i)
      ensures outcome == Committed ==> exists i: nat | i < 5 ::
        && gaps[i].writes == []
        && (forall j | 0 <= j < i :: Disturbed(edit, old(cell), gaps, j))
        && var base := ApplyGaps(old(cell), gaps[..i]);
        && var next := Attempt(Mutate(edit), base, gaps[i].at);
        && next.Ok?
        && cell == Write(base, next.value.0, gaps[i].exec, next.value.1)
      ensures outcome.Failed? ==> exists i: nat | i < 5 ::
        && (forall j | 0 <= j < i :: Disturbed(edit, old(cell), gaps, j))
        && cell == ApplyGaps(old(cell), gaps[..i])
        && Attempt(Mutate(edit), cell, gaps[i].at) == Err(outcome.why)
      ensures outcome != TxConflict
    {
      for i := 0 to MAX_TRIES
        invariant cell == ApplyGaps(old(cell), gaps[..i])
        invariant forall j | 0 <= j < i :: Disturbed(edit, old(cell), gaps, j)
      {
        var watched := cell.version;
        var read := Visible(cell, gaps[i].at);
        if read.None? {
          return Failed(NotFound);
        }
        var next := ApplyEdit(edit, read.value, gaps[i].at);
        if next.Err? {
          return Failed(next.error);
        }
        assert gaps[..i + 1][..i] == gaps[..i];
        cell := ApplyForeign(cell, gaps[i].writes);
        var ok := Exec(watched, next.value.0, gaps[i].exec, next.value.1);
        if ok {
          return Committed;
        }
      }
      assert gaps[..MAX_TRIES] == gaps;
      outcome := RetriesExceeded;
    }

    /** A touch tries once: a disturbed one reports the conflict and writes nothing. */
    method TouchSession(gap: Gap) returns (outcome: Outcome)
      modifies this
      ensures outcome == match Attempt(Touch, old(cell), gap.at)
                         case Err(why) => Failed(why)
                         case Ok(_) => if gap.writes == [] then Committed else TxConflict
      ensures outcome == TxConflict ==> cell == ApplyForeign(old(cell), gap.writes)
      ensures outcome.Failed? ==> cell == old(cell)
      ensures outcome == Committed ==>
        && Attempt(Touch, old(cell), gap.at).Ok?
        && cell == Write(old(cell), Attempt(Touch, old(cell), gap.at).value.0, gap.exec, Attempt(Touch, old(cell), gap.at).value.1)
    {
      var watched := cell.version;
      var read := Visible(cell, gap.at);
      if read.None? {
        return Failed(NoKey);
      }
      var m := read.value.(lastAccess := gap.at, updatedAt := gap.at);
      var newTTL := m.ttl;
      if m.maxLifetime > 0 {
        var elapsed := gap.at - m.createdAt;
        if elapsed >= m.maxLifetime {
          return Failed(NotFound);
        }
        var remain := m.maxLifetime - elapsed;
        if remain < newTTL {
          newTTL := remain;
        }
      }
      cell := ApplyForeign(cell, gap.writes);
      var ok := Exec(watched, m, gap.exec, newTTL);
      outcome := if ok then Committed else TxConflict;
    }
  }
}
