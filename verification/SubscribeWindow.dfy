/**
 A subscribe request takes the subscription lock twice (`internal/engine/engine.go`): once to
 make sure of the session's inner table and to see that the URI is new, and once, after the
 provider has started a forwarder, to store its cancel function. This is what can happen on
 one node between the two.
 */
module SubscribeWindow {
  import opened Wrappers
  import opened Subscriptions

  datatype Request =
    | Checked(sid: SessionId, uri: Uri)               // past the first section
    | Attached(sid: SessionId, uri: Uri, f: Fwd)      // its forwarder is running

  datatype Local = Local(
    n: Node,
    requests: map<nat, Request>,
    lost: set<Fwd>,     // forwarders that run with no cancel function stored or about to be
    wedged: bool)       // a store panicked with the lock held

  datatype Move =
    | Check(p: nat, sid: SessionId, uri: Uri)
    | Attach(p: nat, accepted: bool)
    | Store(p: nat)
    | Drop(sid: SessionId, uri: Uri)    // an unsubscribe event is consumed
    | DropAll(sid: SessionId)           // the session is torn down

  const START := Local(IDLE, map[], {}, false)

  /** All but the provider's own work needs the lock. */
  predicate CanMove(w: Local, m: Move) {
    match m
    case Check(p, _, _) => !w.wedged && p !in w.requests
    case Attach(p, _) => p in w.requests && w.requests[p].Checked?
    case Store(p) => !w.wedged && p in w.requests && w.requests[p].Attached?
    case _ => !w.wedged
  }

  function DoStore(w: Local, p: nat): Local
    requires p in w.requests && w.requests[p].Attached?
  {
    var r := w.requests[p];
    if r.sid !in w.n.subCancels then
      // assignment to an entry of a nil map
      w.(wedged := true, lost := w.lost + {r.f}, requests := w.requests - {p})
    else
      var inner: map<Uri, Fwd> := w.n.subCancels[r.sid];
      var inner': map<Uri, Fwd> := inner[r.uri := r.f];
      w.(n := w.n.(subCancels := w.n.subCancels[r.sid := inner']),
      lost := if r.uri in inner then w.lost + {inner[r.uri]} else w.lost,
      requests := w.requests - {p})
  }

  function Moved(w: Local, m: Move): Local
    requires CanMove(w, m)
  {
    match m
    case Check(p, sid, uri) =>
      var w' := w.(n := SubscribeRefused(w.n, sid));
      if uri in Inner(w.n, sid) then w' else w'.(requests := w.requests[p := Checked(sid, uri)])
    case Attach(p, accepted) =>
      var r := w.requests[p];
      if accepted
      then w.(n := w.n.(fwds := w.n.fwds + [Target(r.sid, r.uri)]), requests := w.requests[p := Attached(r.sid, r.uri, |w.n.fwds|)])
      else w.(requests := w.requests - {p})
    case Store(p) => DoStore(w, p)
    case Drop(sid, uri) => w.(n := Unsubscribe(w.n, sid, uri))
    case DropAll(sid) => w.(n := CancelAll(w.n, sid))
  }

  predicate Possible(w: Local, ms: seq<Move>)
    decreases |ms|
  {
    ms == [] || (CanMove(w, ms[0]) && Possible(Moved(w, ms[0]), ms[1..]))
  }

  function Ran(w: Local, ms: seq<Move>): Local
    requires Possible(w, ms)
    decreases |ms|
  {
    if ms == [] then w else Ran(Moved(w, ms[0]), ms[1..])
  }

  // ----- every live forwarder is accounted for -----

  predicate Awaits(w: Local, p: nat, f: Fwd) {
    p in w.requests && w.requests[p].Attached? && w.requests[p].f == f
  }

  ghost predicate Stored(n: Node, f: Fwd) {
    exists sid, uri :: Recorded(n, f, sid, uri)
  }

  /** A forwarder is in at most one of the three places, and lives exactly while it is in one. */
  ghost predicate Placed(w: Local, f: Fwd) {
    && (f < |w.n.fwds| && f !in w.n.cancelled <==> Stored(w.n, f) || f in w.lost || exists p :: Awaits(w, p, f))
    && !(Stored(w.n, f) && f in w.lost)
    && !(Stored(w.n, f) && exists p :: Awaits(w, p, f))
    && !(f in w.lost && exists p :: Awaits(w, p, f))
  }

  ghost predicate TargetsMatch(w: Local) {
    && (forall f: Fwd, sid, uri | Recorded(w.n, f, sid, uri) :: f < |w.n.fwds| && w.n.fwds[f] == Target(sid, uri))
    && (forall p | p in w.requests && w.requests[p].Attached? ::
          w.requests[p].f < |w.n.fwds| && w.n.fwds[w.requests[p].f] == Target(w.requests[p].sid, w.requests[p].uri))
    && (forall p, q | p in w.requests && q in w.requests && w.requests[p].Attached? && w.requests[q].Attached?
          && w.requests[p].f == w.requests[q].f :: p == q)
    && (forall f | f in w.n.cancelled :: f < |w.n.fwds|)
  }

  ghost predicate Inv(w: Local) {
    TargetsMatch(w) && forall f: Fwd :: Placed(w, f)
  }

  lemma {:induction false} UnsubscribeRecords(n: Node, sid: SessionId, uri: Uri)
    ensures var n' := Unsubscribe(n, sid, uri);
      forall f: Fwd, s, u :: Recorded(n', f, s, u) <==> Recorded(n, f, s, u) && Target(s, u) != Target(sid, uri)
    ensures var n' := Unsubscribe(n, sid, uri);
      forall f: Fwd :: f in n'.cancelled <==> f in n.cancelled || Recorded(n, f, sid, uri)
  {
  }

  lemma {:induction false} CancelAllRecords(n: Node, sid: SessionId)
    ensures var n' := CancelAll(n, sid);
      forall f: Fwd, s, u :: Recorded(n', f, s, u) <==> Recorded(n, f, s, u) && s != sid
    ensures var n' := CancelAll(n, sid);
      forall f: Fwd :: f in n'.cancelled <==> f in n.cancelled || exists u :: Recorded(n, f, sid, u)
  {
    var m := Inner(n, sid);
    forall f: Fwd ensures f in m.Values <==> exists u :: Recorded(n, f, sid, u) {
      if f in m.Values {
        var u :| u in m && m[u] == f;
        assert Recorded(n, f, sid, u);
      }
    }
  }

  lemma {:induction false} StoreRecords(w: Local, p: nat)
    requires p in w.requests && w.requests[p].Attached? && w.requests[p].sid in w.n.subCancels
    ensures var r, n' := w.requests[p], DoStore(w, p).n;
      forall f: Fwd, s, u :: Recorded(n', f, s, u) <==>
        if Target(s, u) == Target(r.sid, r.uri) then f == r.f else Recorded(w.n, f, s, u)
  {
  }

  /** A stored forwarder has one place in the table, its target's. */
  lemma {:induction false} StoredAtTarget(w: Local, f: Fwd, sid: SessionId, uri: Uri)
    requires TargetsMatch(w) && Recorded(w.n, f, sid, uri)
    ensures Stored(w.n, f) && forall s, u | Recorded(w.n, f, s, u) :: s == sid && u == uri
  {
  }

  lemma {:induction false} DropKeepsInv(w: Local, sid: SessionId, uri: Uri)
    requires Inv(w) && CanMove(w, Drop(sid, uri))
    ensures Inv(Moved(w, Drop(sid, uri)))
  {
    var w' := Moved(w, Drop(sid, uri));
    UnsubscribeRecords(w.n, sid, uri);
    forall f: Fwd ensures Placed(w', f) {
      assert Placed(w, f);
      assert forall p :: Awaits(w', p, f) <==> Awaits(w, p, f);
      if Recorded(w.n, f, sid, uri) {
        StoredAtTarget(w, f, sid, uri);
        assert !Stored(w'.n, f);
      } else {
        SameStored(w.n, w'.n, f);
      }
    }
  }

  /** A forwarder whose records are the same in both tables is stored in both or in neither. */
  lemma {:induction false} SameStored(n: Node, n': Node, f: Fwd)
    requires forall s, u :: Recorded(n', f, s, u) <==> Recorded(n, f, s, u)
    ensures Stored(n', f) <==> Stored(n, f)
  {
    if s, u :| Recorded(n, f, s, u) {
      assert Recorded(n', f, s, u);
    }
  }

  lemma {:induction false} DropAllKeepsInv(w: Local, sid: SessionId)
    requires Inv(w) && CanMove(w, DropAll(sid))
    ensures Inv(Moved(w, DropAll(sid)))
  {
    var w' := Moved(w, DropAll(sid));
    CancelAllRecords(w.n, sid);
    forall f: Fwd ensures Placed(w', f) {
      assert Placed(w, f);
      assert forall p :: Awaits(w', p, f) <==> Awaits(w, p, f);
      if u :| Recorded(w.n, f, sid, u) {
        StoredAtTarget(w, f, sid, u);
        assert !Stored(w'.n, f);
      } else {
        SameStored(w.n, w'.n, f);
      }
    }
  }

  lemma {:induction false} CheckKeepsInv(w: Local, p: nat, sid: SessionId, uri: Uri)
    requires Inv(w) && CanMove(w, Check(p, sid, uri))
    ensures Inv(Moved(w, Check(p, sid, uri)))
  {
    var w' := Moved(w, Check(p, sid, uri));
    assert forall f: Fwd, s, u :: Recorded(w'.n, f, s, u) <==> Recorded(w.n, f, s, u);
    forall f: Fwd ensures Placed(w', f) {
      assert Placed(w, f);
      assert forall q :: Awaits(w', q, f) <==> Awaits(w, q, f);
      SameStored(w.n, w'.n, f);
    }
  }

  lemma {:induction false} AttachKeepsInv(w: Local, p: nat, accepted: bool)
    requires Inv(w) && CanMove(w, Attach(p, accepted))
    ensures Inv(Moved(w, Attach(p, accepted)))
  {
    var w' := Moved(w, Attach(p, accepted));
    assert forall f: Fwd, s, u :: Recorded(w'.n, f, s, u) <==> Recorded(w.n, f, s, u);
    forall f: Fwd ensures Placed(w', f) {
      assert Placed(w, f);
      assert forall q :: Awaits(w', q, f) <==> if q == p then accepted && f == |w.n.fwds| else Awaits(w, q, f);
      SameStored(w.n, w'.n, f);
      if accepted && f == |w.n.fwds| {
        assert Awaits(w', p, f);
      } else {
        assert !Awaits(w, p, f);
      }
    }
  }

  lemma {:induction false} WedgeKeepsInv(w: Local, p: nat)
    requires Inv(w) && CanMove(w, Store(p)) && w.requests[p].sid !in w.n.subCancels
    ensures Inv(Moved(w, Store(p)))
  {
    var w' := Moved(w, Store(p));
    forall f: Fwd ensures Placed(w', f) {
      assert Placed(w, f);
      assert forall q :: Awaits(w', q, f) <==> q != p && Awaits(w, q, f);
      SameStored(w.n, w'.n, f);
      if f == w.requests[p].f {
        assert Awaits(w, p, f);
      }
    }
  }

  lemma {:induction false} StorePlaces(w: Local, p: nat, f: Fwd)
    requires Inv(w) && CanMove(w, Store(p)) && w.requests[p].sid in w.n.subCancels
    ensures Placed(Moved(w, Store(p)), f)
  {
    var w' := Moved(w, Store(p));
    var r := w.requests[p];
    StoreRecords(w, p);
    assert Placed(w, f) && Awaits(w, p, r.f) && Placed(w, r.f);
    if r.uri in Inner(w.n, r.sid) {
      assert Recorded(w.n, Inner(w.n, r.sid)[r.uri], r.sid, r.uri) && Stored(w.n, Inner(w.n, r.sid)[r.uri]);
    }
    assert forall q :: Awaits(w', q, f) <==> q != p && Awaits(w, q, f);
    if f == r.f {
      assert Recorded(w'.n, f, r.sid, r.uri);
    } else if Recorded(w.n, f, r.sid, r.uri) {
      StoredAtTarget(w, f, r.sid, r.uri);
      assert !Stored(w'.n, f) && f in w'.lost;
    } else {
      SameStored(w.n, w'.n, f);
      assert !Awaits(w, p, f);
    }
  }

  lemma {:induction false} StoreKeepsInv(w: Local, p: nat)
    requires Inv(w) && CanMove(w, Store(p)) && w.requests[p].sid in w.n.subCancels
    ensures Inv(Moved(w, Store(p)))
  {
    StoreRecords(w, p);
    forall f: Fwd ensures Placed(Moved(w, Store(p)), f) {
      StorePlaces(w, p, f);
    }
  }

  lemma {:induction false} MoveKeepsInv(w: Local, m: Move)
    requires Inv(w) && CanMove(w, m)
    ensures Inv(Moved(w, m))
  {
    match m
    case Check(p, sid, uri) => CheckKeepsInv(w, p, sid, uri);
    case Attach(p, accepted) => AttachKeepsInv(w, p, accepted);
    case Store(p) =>
      if w.requests[p].sid in w.n.subCancels {
        StoreKeepsInv(w, p);
      } else {
        WedgeKeepsInv(w, p);
      }
    case Drop(sid, uri) => DropKeepsInv(w, sid, uri);
    case DropAll(sid) => DropAllKeepsInv(w, sid);
  }

  lemma {:induction false} RunKeepsInv(w: Local, ms: seq<Move>)
    requires Inv(w) && Possible(w, ms)
    ensures Inv(Ran(w, ms))
    decreases |ms|
  {
    if ms != [] {
      MoveKeepsInv(w, ms[0]);
      RunKeepsInv(Moved(w, ms[0]), ms[1..]);
    }
  }

  lemma {:induction false} StartInv()
    ensures Inv(START)
  {
    forall f: Fwd ensures Placed(START, f) {
      assert !Stored(START.n, f);
    }
  }

  /**
   Accounting. In every run a forwarder is live exactly while its cancel function is stored, is
   about to be stored, or is lost, and it is in only one of these places.
   */
  lemma {:induction false} LiveForwardersAreAccountedFor(ms: seq<Move>, f: Fwd)
    requires Possible(START, ms)
    ensures var w := Ran(START, ms);
      && Placed(w, f)
      && (f < |w.n.fwds| && f !in w.n.cancelled <==> Stored(w.n, f) || f in w.lost || exists p :: Awaits(w, p, f))
  {
    StartInv();
    RunKeepsInv(START, ms);
  }

  /** What is lost stays lost: no continuation cancels it. */
  lemma {:induction false} LostForGood(w: Local, ms: seq<Move>, f: Fwd)
    requires Inv(w) && Possible(w, ms) && f in w.lost
    ensures f in Ran(w, ms).lost && f < |Ran(w, ms).n.fwds| && f !in Ran(w, ms).n.cancelled
    decreases |ms|
  {
    assert Placed(w, f);
    if ms != [] {
      MoveKeepsInv(w, ms[0]);
      LostForGood(Moved(w, ms[0]), ms[1..], f);
    }
  }

  // ----- when a request goes wrong -----

  /** The move deletes the session's inner table. */
  predicate Removes(w: Local, m: Move, sid: SessionId) {
    || (m == DropAll(sid) && Inner(w.n, sid) != map[])
    || (m.Drop? && m.sid == sid && Inner(w.n, sid).Keys == {m.uri})
  }

  predicate Rechecks(m: Move, sid: SessionId) {
    m.Check? && m.sid == sid
  }

  predicate NoRecheck(ms: seq<Move>, sid: SessionId) {
    forall i | 0 <= i < |ms| :: !Rechecks(ms[i], sid)
  }

  /** The inner table is deleted and no later request makes it again. */
  predicate RemovedForGood(w: Local, ms: seq<Move>, sid: SessionId)
    requires Possible(w, ms)
    decreases |ms|
  {
    ms != [] && ((Removes(w, ms[0], sid) && NoRecheck(ms[1..], sid)) || RemovedForGood(Moved(w, ms[0]), ms[1..], sid))
  }

  lemma {:induction false} TableStep(w: Local, m: Move, sid: SessionId)
    requires CanMove(w, m)
    ensures sid in Moved(w, m).n.subCancels <==> (sid in w.n.subCancels && !Removes(w, m, sid)) || Rechecks(m, sid)
  {
    if m.Drop? && m.sid == sid && Inner(w.n, sid) != map[] {
      var inner := Inner(w.n, sid);
      assert (inner - {m.uri}).Keys == inner.Keys - {m.uri};
      assert inner - {m.uri} == map[] <==> (inner - {m.uri}).Keys == {};
    }
  }

  lemma {:induction false} TableRun(w: Local, ms: seq<Move>, sid: SessionId)
    requires Possible(w, ms)
    ensures sid !in Ran(w, ms).n.subCancels <==>
      RemovedForGood(w, ms, sid) || (sid !in w.n.subCancels && NoRecheck(ms, sid))
    decreases |ms|
  {
    if ms != [] {
      TableStep(w, ms[0], sid);
      TableRun(Moved(w, ms[0]), ms[1..], sid);
      assert NoRecheck(ms, sid) <==> !Rechecks(ms[0], sid) && NoRecheck(ms[1..], sid) by {
        assert forall i | 1 <= i < |ms| :: ms[i] == ms[1..][i - 1];
      }
    }
  }

  predicate Clears(m: Move, sid: SessionId, uri: Uri) {
    m == Drop(sid, uri) || m == DropAll(sid)
  }

  predicate NoClear(ms: seq<Move>, sid: SessionId, uri: Uri) {
    forall i | 0 <= i < |ms| :: !Clears(ms[i], sid, uri)
  }

  /** Another request for the same session and URI gets as far as storing. */
  predicate StoresEntry(w: Local, m: Move, sid: SessionId, uri: Uri)
    requires CanMove(w, m)
  {
    m.Store? && w.requests[m.p].sid == sid && w.requests[m.p].uri == uri && sid in w.n.subCancels
  }

  /** Such an entry is stored and not cleared again. */
  predicate StoredForGood(w: Local, ms: seq<Move>, sid: SessionId, uri: Uri)
    requires Possible(w, ms)
    decreases |ms|
  {
    && ms != []
    && ((StoresEntry(w, ms[0], sid, uri) && NoClear(ms[1..], sid, uri)) || StoredForGood(Moved(w, ms[0]), ms[1..], sid, uri))
  }

  lemma {:induction false} EntryStep(w: Local, m: Move, sid: SessionId, uri: Uri)
    requires CanMove(w, m)
    ensures uri in Inner(Moved(w, m).n, sid) <==>
      (uri in Inner(w.n, sid) && !Clears(m, sid, uri)) || StoresEntry(w, m, sid, uri)
  {
  }

  lemma {:induction false} EntryRun(w: Local, ms: seq<Move>, sid: SessionId, uri: Uri)
    requires Possible(w, ms)
    ensures uri in Inner(Ran(w, ms).n, sid) <==>
      StoredForGood(w, ms, sid, uri) || (uri in Inner(w.n, sid) && NoClear(ms, sid, uri))
    decreases |ms|
  {
    if ms != [] {
      EntryStep(w, ms[0], sid, uri);
      EntryRun(Moved(w, ms[0]), ms[1..], sid, uri);
      assert NoClear(ms, sid, uri) <==> !Clears(ms[0], sid, uri) && NoClear(ms[1..], sid, uri) by {
        assert forall i | 1 <= i < |ms| :: ms[i] == ms[1..][i - 1];
      }
    }
  }

  /**
   What the window costs. A request that found its URI new panics with the lock held, so that
   the node handles no subscription again, if and only if meanwhile the session's table was
   deleted and not made again. It loses a forwarder, its own or another's, if and only if
   that happened or another request for the same session and URI was stored and not cleared.
   */
  lemma {:induction false} WindowCostsIff(before: seq<Move>, p: nat, sid: SessionId, uri: Uri, between: seq<Move>, f: Fwd)
    requires Possible(START, before) && CanMove(Ran(START, before), Check(p, sid, uri))
    requires uri !in Inner(Ran(START, before).n, sid)
    requires Possible(Moved(Ran(START, before), Check(p, sid, uri)), between)
    requires var w := Ran(Moved(Ran(START, before), Check(p, sid, uri)), between);
      CanMove(w, Store(p)) && w.requests[p] == Attached(sid, uri, f)
    ensures var checked := Moved(Ran(START, before), Check(p, sid, uri));
      var w := Ran(checked, between);
      && (Moved(w, Store(p)).wedged <==> RemovedForGood(checked, between, sid))
      && (Moved(w, Store(p)).lost != w.lost <==> RemovedForGood(checked, between, sid) || StoredForGood(checked, between, sid, uri))
  {
    StartInv();
    RunKeepsInv(START, before);
    var checked := Moved(Ran(START, before), Check(p, sid, uri));
    MoveKeepsInv(Ran(START, before), Check(p, sid, uri));
    RunKeepsInv(checked, between);
    TableRun(checked, between, sid);
    EntryRun(checked, between, sid, uri);
    StoreLoses(Ran(checked, between), p);
  }

  lemma {:induction false} StoreLoses(w: Local, p: nat)
    requires Inv(w) && CanMove(w, Store(p))
    ensures var r := w.requests[p];
      && (Moved(w, Store(p)).wedged <==> r.sid !in w.n.subCancels)
      && (Moved(w, Store(p)).lost != w.lost <==> r.sid !in w.n.subCancels || r.uri in Inner(w.n, r.sid))
  {
    var r := w.requests[p];
    assert Awaits(w, p, r.f) && Placed(w, r.f);
    if r.uri in Inner(w.n, r.sid) {
      var g := Inner(w.n, r.sid)[r.uri];
      assert Recorded(w.n, g, r.sid, r.uri) && Stored(w.n, g) && Placed(w, g);
    }
  }

  /** With no request in its window and nothing lost, the table is exact; and only then. */
  lemma {:induction false} TableExactIff(ms: seq<Move>)
    requires Possible(START, ms)
    ensures var w := Ran(START, ms);
      TableExact(w.n) <==> w.lost == {} && forall p | p in w.requests :: w.requests[p].Checked?
  {
    StartInv();
    RunKeepsInv(START, ms);
    var w := Ran(START, ms);
    if w.lost == {} && forall p | p in w.requests :: w.requests[p].Checked? {
      forall f: Fwd, sid, uri ensures Live(w.n, f, sid, uri) <==> Recorded(w.n, f, sid, uri) {
        assert Placed(w, f);
        assert Recorded(w.n, f, sid, uri) ==> Stored(w.n, f);
      }
    }
    if TableExact(w.n) {
      forall f: Fwd ensures f !in w.lost {
        ExactMeansStored(w, f, 0);
      }
      forall p | p in w.requests ensures w.requests[p].Checked? {
        if w.requests[p].Attached? {
          ExactMeansStored(w, w.requests[p].f, p);
        }
      }
    }
  }

  lemma {:induction false} ExactMeansStored(w: Local, f: Fwd, p: nat)
    requires Inv(w) && TableExact(w.n)
    ensures f !in w.lost && !Awaits(w, p, f)
  {
    assert Placed(w, f);
    if f < |w.n.fwds| && f !in w.n.cancelled {
      assert Live(w.n, f, w.n.fwds[f].sid, w.n.fwds[f].uri);
      assert Stored(w.n, f);
    }
  }

  // ----- both happen -----

  lemma {:induction false} Prepend(w: Local, m: Move, rest: seq<Move>)
    requires CanMove(w, m) && Possible(Moved(w, m), rest)
    ensures Possible(w, [m] + rest) && Ran(w, [m] + rest) == Ran(Moved(w, m), rest)
  {
    assert ([m] + rest)[1..] == rest;
  }

  /** Two overlapping requests for one URI: the first forwarder can never be cancelled. */
  lemma {:induction false} OverlappingSubscribesLose(sid: SessionId, uri: Uri)
    ensures exists ms: seq<Move> :: Possible(START, ms) && Ran(START, ms).lost == {0} && !Ran(START, ms).wedged
  {
    var w1 := Moved(START, Check(0, sid, uri));
    var w2 := Moved(w1, Check(1, sid, uri));
    var w3 := Moved(w2, Attach(0, true));
    var w4 := Moved(w3, Attach(1, true));
    assert w4.requests[0] == Attached(sid, uri, 0) && w4.requests[1] == Attached(sid, uri, 1);
    var w5 := Moved(w4, Store(0));
    assert w5.n.subCancels[sid] == map[uri := 0];
    Prepend(w5, Store(1), []);
    Prepend(w4, Store(0), [Store(1)]);
    var s4 := [Store(0)] + [Store(1)];
    Prepend(w3, Attach(1, true), s4);
    var s3 := [Attach(1, true)] + s4;
    Prepend(w2, Attach(0, true), s3);
    Prepend(w1, Check(1, sid, uri), [Attach(0, true)] + s3);
    Prepend(START, Check(0, sid, uri), [Check(1, sid, uri)] + ([Attach(0, true)] + s3));
  }

  /** Unsubscribing the session's only other URI inside the window: the store panics. */
  lemma {:induction false} UnsubscribeInWindowWedges(sid: SessionId, uri: Uri, other: Uri)
    requires uri != other
    ensures exists ms: seq<Move> :: Possible(START, ms) && Ran(START, ms).wedged
  {
    var w1 := Moved(START, Check(0, sid, other));
    var w2 := Moved(w1, Attach(0, true));
    var w3 := Moved(w2, Store(0));
    assert w3.n.subCancels == map[sid := map[other := 0]];
    var w4 := Moved(w3, Check(1, sid, uri));
    var w5 := Moved(w4, Attach(1, true));
    assert w5.n.subCancels == w3.n.subCancels && w5.requests[1] == Attached(sid, uri, 1);
    var w6 := Moved(w5, Drop(sid, other));
    assert map[other := 0] - {other} == map[];
    Prepend(w6, Store(1), []);
    Prepend(w5, Drop(sid, other), [Store(1)]);
    var s5 := [Drop(sid, other)] + [Store(1)];
    Prepend(w4, Attach(1, true), s5);
    var s4 := [Attach(1, true)] + s5;
    Prepend(w3, Check(1, sid, uri), s4);
    var s3 := [Check(1, sid, uri)] + s4;
    Prepend(w2, Store(0), s3);
    Prepend(w1, Attach(0, true), [Store(0)] + s3);
    Prepend(START, Check(0, sid, other), [Attach(0, true)] + ([Store(0)] + s3));
  }
}
