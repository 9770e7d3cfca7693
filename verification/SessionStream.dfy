/**
 One in-memory session stream (`sessions/memoryhost/memory.go`): an append-only list of
 messages that competing subscribers claim, handle and acknowledge, and a list of waiter
 channels on which idle subscribers park.

 `State` is the value of the stream's fields between two critical sections, and each
 function on it is what one critical section does. The class `Stream` holds the same
 fields as mutable state and runs the original loops; every method is proved equal to its
 function.
 */
module SessionStream {
  import opened Wrappers
  import Decimal

  /** Identity of a waiter channel; channels are numbered in creation order. */
  type Waiter = nat
  type Payload = seq<bv8>

  datatype Message = Message(id: string, data: Payload)

  datatype State = State(
    messages: seq<Message>,
    nextID: nat,
    waiters: seq<Waiter>,
    closed: bool,
    delivered: set<string>,
    inflight: set<string>,
    created: nat,         // waiter channels made so far
    tokens: set<Waiter>)  // waiter channels whose one-slot buffer holds a signal

  const EMPTY := State([], 0, [], false, {}, {}, 0, {})

  /** The id given to the message at position i: positions count from 0, ids from 1. */
  function IdAt(i: nat): string {
    Decimal.Itoa(i + 1)
  }

  lemma {:induction false} IdAtInjective(i: nat, j: nat)
    ensures IdAt(i) == IdAt(j) ==> i == j
  {
    Decimal.ItoaInjective(i + 1, j + 1);
  }

  function Elements(ws: seq<Waiter>): set<Waiter> {
    set w | w in ws
  }

  function Publish(s: State, data: Payload): State {
    s.(messages := s.messages + [Message(Decimal.Itoa(s.nextID + 1), data)],
    nextID := s.nextID + 1,
    tokens := s.tokens + Elements(s.waiters),
    waiters := [])
  }

  /** Position of the first message that carries the id. */
  function IndexOf(ms: seq<Message>, id: string): (r: Option<nat>)
    ensures r.Some? ==> r.value < |ms| && ms[r.value].id == id
    ensures r.None? ==> forall i | 0 <= i < |ms| :: ms[i].id != id
    ensures r.Some? ==> forall i | 0 <= i < r.value :: ms[i].id != id
  {
    if ms == [] then None
    else if ms[0].id == id then Some(0)
    else
      match IndexOf(ms[1..], id)
      case None =>
        assert forall i | 1 <= i < |ms| :: ms[i] == ms[1..][i - 1];
        None
      case Some(i) =>
        assert forall j | 1 <= j < |ms| :: ms[j] == ms[1..][j - 1];
        Some(i + 1)
  }

  /** Where a new subscriber starts: after the message it names, otherwise at the end. */
  function StartCursor(s: State, lastEventID: string): int {
    if lastEventID == "" then |s.messages| - 1
    else match IndexOf(s.messages, lastEventID)
      case Some(i) => i
      case None => |s.messages| - 1
  }

  predicate Taken(s: State, i: nat)
    requires i < |s.messages|
  {
    s.messages[i].id in s.delivered || s.messages[i].id in s.inflight
  }

  /** The first message after the cursor that is neither delivered nor in flight. */
  function Claimable(s: State, cursor: int, from: nat): (r: Option<nat>)
    requires from <= |s.messages|
    ensures r.Some? ==> from <= r.value < |s.messages| && cursor < r.value && !Taken(s, r.value)
    ensures r.Some? ==> forall j: nat | from <= j < r.value && cursor < j :: Taken(s, j)
    ensures r.None? ==> forall j: nat | from <= j < |s.messages| && cursor < j :: Taken(s, j)
    decreases |s.messages| - from
  {
    if from == |s.messages| then None
    else if cursor < from && !Taken(s, from) then Some(from)
    else Claimable(s, cursor, from + 1)
  }

  function Claim(s: State, i: nat): State
    requires i < |s.messages|
  {
    s.(inflight := s.inflight + {s.messages[i].id})
  }

  function Park(s: State): State {
    s.(waiters := s.waiters + [s.created], created := s.created + 1)
  }

  datatype Attempt = StreamClosed | Claimed(i: nat) | MustWait(w: Waiter)

  /** One pass through the claiming critical section. */
  function TryClaim(s: State, cursor: int): (State, Attempt) {
    if s.closed then (s, StreamClosed)
    else match Claimable(s, cursor, 0)
      case Some(i) => (Claim(s, i), Claimed(i))
      case None => (Park(s), MustWait(s.created))
  }

  function Release(s: State, id: string): State {
    s.(inflight := s.inflight - {id})
  }

  function Ack(s: State, id: string): State {
    s.(inflight := s.inflight - {id}, delivered := s.delivered + {id})
  }

  /** The cursor after acknowledging: the message's position, if the list still holds it. */
  function AckCursor(s: State, id: string, cursor: int): int {
    match IndexOf(s.messages, id)
    case Some(i) => i
    case None => cursor
  }

  /** Closing hands back the waiters to signal once the lock is released. */
  function Close(s: State): (State, seq<Waiter>) {
    (s.(closed := true, waiters := []), s.waiters)
  }

  function Signal(s: State, w: Waiter): State {
    s.(tokens := s.tokens + {w})
  }

  /** A parked subscriber takes the signal out of its channel. */
  function TakeToken(s: State, w: Waiter): State {
    s.(tokens := s.tokens - {w})
  }

  /** The stream as the host mutates it, one method per critical section. */
  class Stream {
    var messages: seq<Message>
    var nextID: nat
    var waiters: seq<Waiter>
    var closed: bool
    var delivered: set<string>
    var inflight: set<string>
    var created: nat
    var tokens: set<Waiter>

    ghost function Contents(): State
      reads this
    {
      State(messages, nextID, waiters, closed, delivered, inflight, created, tokens)
    }

    constructor ()
      ensures Contents() == EMPTY
    {
      messages, nextID, waiters, closed := [], 0, [], false;
      delivered, inflight, created, tokens := {}, {}, 0, {};
    }

    method PublishMessage(data: Payload) returns (id: string)
      modifies this
      ensures Contents() == Publish(old(Contents()), data)
      ensures messages == old(messages) + [Message(id, data)] && id == Decimal.Itoa(old(nextID) + 1)
      ensures tokens == old(tokens) + (set w | w in old(waiters)) && waiters == []
    {
      nextID := nextID + 1;
      id := Decimal.Itoa(nextID);
      messages := messages + [Message(id, data)];
      var toWake := waiters;
      SignalAll(toWake);
      waiters := [];
    }

    /** Sends on every waiter channel; a full one is skipped. */
    method SignalAll(toWake: seq<Waiter>)
      modifies this`tokens
      ensures tokens == old(tokens) + Elements(toWake)
    {
      for k := 0 to |toWake|
        invariant tokens == old(tokens) + Elements(toWake[..k])
      {
        assert Elements(toWake[..k + 1]) == Elements(toWake[..k]) + {toWake[k]};
        tokens := tokens + {toWake[k]};
      }
      assert toWake[..|toWake|] == toWake;
    }

    method LocateStart(lastEventID: string) returns (lastIdx: int)
      ensures lastIdx == StartCursor(Contents(), lastEventID)
    {
      lastIdx := -1;
      if lastEventID != "" {
        for i := 0 to |messages|
          invariant lastIdx == -1
          invariant forall k | 0 <= k < i :: messages[k].id != lastEventID
        {
          if messages[i].id == lastEventID {
            lastIdx := i;
            break;
          }
        }
        if lastIdx < 0 {
          lastIdx := |messages| - 1;
        }
      } else {
        lastIdx := |messages| - 1;
      }
    }

    method ClaimNext(lastIdx: int) returns (outcome: Attempt)
      modifies this
      ensures (Contents(), outcome) == TryClaim(old(Contents()), lastIdx)
    {
      if closed {
        return StreamClosed;
      }
      ghost var s := Contents();
      for i := 0 to |messages|
        invariant Contents() == s
        invariant Claimable(s, lastIdx, 0) == Claimable(s, lastIdx, i)
      {
        if i <= lastIdx {
          continue;
        }
        var id := messages[i].id;
        if id in delivered || id in inflight {
          continue;
        }
        inflight := inflight + {id};
        return Claimed(i);
      }
      outcome := MustWait(created);
      waiters := waiters + [created];
      created := created + 1;
    }

    method ReleaseClaim(id: string)
      modifies this
      ensures Contents() == Release(old(Contents()), id)
    {
      inflight := inflight - {id};
    }

    method AckClaim(id: string, cursor: int) returns (lastIdx: int)
      modifies this
      ensures Contents() == Ack(old(Contents()), id)
      ensures lastIdx == AckCursor(old(Contents()), id, cursor)
    {
      inflight := inflight - {id};
      delivered := delivered + {id};
      lastIdx := cursor;
      for i := 0 to |messages|
        invariant lastIdx == cursor
        invariant forall k | 0 <= k < i :: messages[k].id != id
      {
        if messages[i].id == id {
          lastIdx := i;
          break;
        }
      }
    }

    method CloseStream() returns (snapshot: seq<Waiter>)
      modifies this
      ensures (Contents(), snapshot) == Close(old(Contents()))
    {
      closed := true;
      snapshot := waiters;
      waiters := [];
    }
  }
}
