/**
 Resource subscriptions across the nodes of a deployment (`internal/engine/engine.go`). Each
 node keeps a table from session and URI to the cancel function of a forwarder; an
 unsubscribe is only published on the shared, totally ordered fan-out topic, and each node
 cancels its own forwarder when it consumes the event.
 */
module Subscriptions {
  import opened Wrappers

  type SessionId = string
  type UserId = string
  type Uri = string
  type NodeId = nat
  type Fwd = nat   // a forwarder of one node, numbered in creation order

  datatype Target = Target(sid: SessionId, uri: Uri)

  datatype Node = Node(
    subCancels: map<SessionId, map<Uri, Fwd>>,
    fwds: seq<Target>,       // what each forwarder ever started here serves
    cancelled: set<Fwd>)     // forwarders whose cancel function has run

  const IDLE := Node(map[], [], {})

  function Inner(n: Node, sid: SessionId): map<Uri, Fwd> {
    if sid in n.subCancels then n.subCancels[sid] else map[]
  }

  /** A subscribe request: idempotent, otherwise starts a forwarder and records its cancel. */
  function Subscribe(n: Node, sid: SessionId, uri: Uri): Node {
    var m := Inner(n, sid);
    if uri in m then n.(subCancels := n.subCancels[sid := m])
    else n.(subCancels := n.subCancels[sid := m[uri := |n.fwds|]], fwds := n.fwds + [Target(sid, uri)])
  }

  /** The provider refused: only the session's (possibly empty) inner table remains. */
  function SubscribeRefused(n: Node, sid: SessionId): Node {
    n.(subCancels := n.subCancels[sid := Inner(n, sid)])
  }

  /** Consuming an unsubscribe event. */
  function Unsubscribe(n: Node, sid: SessionId, uri: Uri): Node {
    var m := Inner(n, sid);
    if m == map[] then n
    else
      var m' := m - {uri};
      n.(cancelled := if uri in m then n.cancelled + {m[uri]} else n.cancelled,
      subCancels := if m' == map[] then n.subCancels - {sid} else n.subCancels[sid := m'])
  }

  /** Local teardown of a whole session. */
  function CancelAll(n: Node, sid: SessionId): Node {
    var m := Inner(n, sid);
    if m == map[] then n
    else n.(cancelled := n.cancelled + m.Values, subCancels := n.subCancels - {sid})
  }

  function CancelsOf(m: map<Uri, Fwd>, uris: set<Uri>): set<Fwd> {
    set u | u in uris && u in m :: m[u]
  }

  lemma {:induction false} CancelsOfOneMore(m: map<Uri, Fwd>, uris: set<Uri>, uri: Uri)
    requires uri in m
    ensures CancelsOf(m, uris + {uri}) == CancelsOf(m, uris) + {m[uri]}
  {
  }

  lemma {:induction false} CancelsOfAll(m: map<Uri, Fwd>)
    ensures CancelsOf(m, m.Keys) == m.Values
  {
  }

  /** A node's subscription table, updated in place. */
  class Table {
    var subCancels: map<SessionId, map<Uri, Fwd>>
    var fwds: seq<Target>
    var cancelled: set<Fwd>

    ghost function Contents(): Node
      reads this
    {
      Node(subCancels, fwds, cancelled)
    }

    constructor ()
      ensures Contents() == IDLE
    {
      subCancels, fwds, cancelled := map[], [], {};
    }

    method HandleSubscribe(sid: SessionId, uri: Uri, accepted: bool)
      modifies this
      ensures Contents() ==
        if accepted || uri in Inner(old(Contents()), sid) then Subscribe(old(Contents()), sid, uri)
        else SubscribeRefused(old(Contents()), sid)
      ensures var known := sid in old(subCancels) && uri in old(subCancels)[sid];
        && sid in subCancels
        && (known || accepted <==> uri in subCancels[sid])
        && (accepted && !known ==> fwds == old(fwds) + [Target(sid, uri)] && subCancels[sid][uri] == |old(fwds)|)
        && (known || !accepted ==> fwds == old(fwds))
        && cancelled == old(cancelled)
    {
      if sid !in subCancels {
        subCancels := subCancels[sid := map[]];
      }
      if uri in subCancels[sid] {
        return;
      }
      if !accepted {
        return;
      }
      var cancel := |fwds|;
      fwds := fwds + [Target(sid, uri)];
      subCancels := subCancels[sid := subCancels[sid][uri := cancel]];
    }

    method ConsumeUnsubscribe(sid: SessionId, uri: Uri)
      modifies this
      ensures Contents() == Unsubscribe(old(Contents()), sid, uri)
    {
      if sid in subCancels && subCancels[sid] != map[] {
        var m := subCancels[sid];
        if uri in m {
          cancelled := cancelled + {m[uri]};
          m := m - {uri};
        }
        assert m == old(subCancels)[sid] - {uri};
        if m == map[] {
          subCancels := subCancels - {sid};
        } else {
          subCancels := subCancels[sid := m];
        }
      }
    }

    /** Ranges over the inner table in whatever order the runtime picks. */
    method CancelAllForSession(sid: SessionId)
      modifies this
      ensures Contents() == CancelAll(old(Contents()), sid)
    {
      if sid in subCancels && subCancels[sid] != map[] {
        var all := subCancels[sid];
        var todo := all.Keys;
        assert all.Keys - todo == {} && CancelsOf(all, {}) == {};
        while todo != {}
          invariant subCancels == old(subCancels) && fwds == old(fwds) && todo <= all.Keys
          invariant cancelled == old(cancelled) + CancelsOf(all, all.Keys - todo)
        {
          var uri :| uri in todo;
          CancelsOfOneMore(all, all.Keys - todo, uri);
          assert all.Keys - (todo - {uri}) == (all.Keys - todo) + {uri};
          cancelled := cancelled + {all[uri]};
          todo := todo - {uri};
        }
        assert all.Keys - {} == all.Keys;
        CancelsOfAll(all);
        subCancels := subCancels - {sid};
      }
    }
  }

  // ----- runs -----

  datatype Event = Unsub(sid: SessionId, user: UserId, uri: Uri) | SessionDeleted(sid: SessionId, user: UserId) | Unrelated

  datatype World = World(
    nodes: map<NodeId, Node>,
    seen: map<NodeId, nat>,            // how far each node has consumed the topic
    topic: seq<Event>,
    owner: map<SessionId, UserId>)     // session records

  datatype Step =
    | Join(n: NodeId)
    | CreateSession(sid: SessionId, user: UserId)
    | DoSubscribe(n: NodeId, sid: SessionId, uri: Uri, accepted: bool)
    | PublishUnsubscribe(sid: SessionId, user: UserId, uri: Uri)
    | PublishOther
    | Consume(n: NodeId)
    | StartDelete(n: NodeId, sid: SessionId, user: UserId)  // local teardown and fan-out
    | FinishDelete(sid: SessionId)                          // the record is removed

  const INITIAL := World(map[], map[], [], map[])

  predicate Enabled(w: World, step: Step) {
    match step
    case Join(n) => n !in w.nodes && n !in w.seen
    case CreateSession(sid, user) => sid !in w.owner && user != ""
    case DoSubscribe(n, _, _, _) => n in w.nodes
    case Consume(n) => n in w.nodes && n in w.seen && w.seen[n] < |w.topic|
    case StartDelete(n, _, _) => n in w.nodes
    case _ => true
  }

  /** LoadSession on the event's session: the record exists and belongs to the event's user. */
  predicate Loads(w: World, e: Event) {
    !e.Unrelated? && e.sid in w.owner && w.owner[e.sid] == e.user && e.user != ""
  }

  function Handle(w: World, n: Node, e: Event): Node {
    if !Loads(w, e) then n
    else if e.Unsub? then Unsubscribe(n, e.sid, e.uri)
    else CancelAll(n, e.sid)
  }

  function Next(w: World, step: Step): World
    requires Enabled(w, step)
  {
    match step
    case Join(n) => w.(nodes := w.nodes[n := IDLE], seen := w.seen[n := |w.topic|])
    case CreateSession(sid, user) => w.(owner := w.owner[sid := user])
    case DoSubscribe(n, sid, uri, accepted) =>
      var node := w.nodes[n];
      w.(nodes := w.nodes[n := if accepted || uri in Inner(node, sid) then Subscribe(node, sid, uri)
                               else SubscribeRefused(node, sid)])
    case PublishUnsubscribe(sid, user, uri) => w.(topic := w.topic + [Unsub(sid, user, uri)])
    case PublishOther => w.(topic := w.topic + [Unrelated])
    case Consume(n) =>
      w.(nodes := w.nodes[n := Handle(w, w.nodes[n], w.topic[w.seen[n]])], seen := w.seen[n := w.seen[n] + 1])
    case StartDelete(n, sid, user) =>
      w.(nodes := w.nodes[n := CancelAll(w.nodes[n], sid)], topic := w.topic + [SessionDeleted(sid, user)])
    case FinishDelete(sid) => w.(owner := w.owner - {sid})
  }

  predicate Legal(w: World, steps: seq<Step>)
    decreases |steps|
  {
    steps == [] || (Enabled(w, steps[0]) && Legal(Next(w, steps[0]), steps[1..]))
  }

  function After(w: World, steps: seq<Step>): World
    requires Legal(w, steps)
    decreases |steps|
  {
    if steps == [] then w else After(Next(w, steps[0]), steps[1..])
  }

  // ----- the invariant -----

  /** A forwarder of this node that nobody has cancelled. */
  ghost predicate Live(n: Node, f: Fwd, sid: SessionId, uri: Uri) {
    f < |n.fwds| && f !in n.cancelled && n.fwds[f] == Target(sid, uri)
  }

  ghost predicate Recorded(n: Node, f: Fwd, sid: SessionId, uri: Uri) {
    uri in Inner(n, sid) && Inner(n, sid)[uri] == f
  }

  /** Uncancelled forwarders and table entries correspond one to one. */
  ghost predicate TableExact(n: Node) {
    && (forall f | f in n.cancelled :: f < |n.fwds|)
    && forall f: Fwd, sid, uri :: Live(n, f, sid, uri) <==> Recorded(n, f, sid, uri)
  }

  ghost predicate Inv(w: World) {
    && w.nodes.Keys == w.seen.Keys
    && forall n | n in w.nodes :: TableExact(w.nodes[n])
  }

  lemma {:induction false} SubscribeKeepsExact(n: Node, sid: SessionId, uri: Uri)
    requires TableExact(n)
    ensures TableExact(Subscribe(n, sid, uri))
  {
    var n' := Subscribe(n, sid, uri);
    forall f: Fwd, s, u ensures Live(n', f, s, u) <==> Recorded(n', f, s, u) {
      assert Live(n, f, s, u) <==> Recorded(n, f, s, u);
    }
  }

  lemma {:induction false} RefusalKeepsExact(n: Node, sid: SessionId)
    requires TableExact(n)
    ensures TableExact(SubscribeRefused(n, sid))
  {
    var n' := SubscribeRefused(n, sid);
    forall f: Fwd, s, u ensures Live(n', f, s, u) <==> Recorded(n', f, s, u) {
      assert Live(n, f, s, u) <==> Recorded(n, f, s, u);
    }
  }

  lemma {:induction false} UnsubscribeKeepsExact(n: Node, sid: SessionId, uri: Uri)
    requires TableExact(n)
    ensures TableExact(Unsubscribe(n, sid, uri))
    ensures forall f: Fwd :: !Live(Unsubscribe(n, sid, uri), f, sid, uri)
    ensures forall f: Fwd, s, u | Target(s, u) != Target(sid, uri) ::
              Live(Unsubscribe(n, sid, uri), f, s, u) <==> Live(n, f, s, u)
  {
    var n' := Unsubscribe(n, sid, uri);
    if uri in Inner(n, sid) {
      assert Recorded(n, Inner(n, sid)[uri], sid, uri);
      assert Live(n, Inner(n, sid)[uri], sid, uri);
    }
    forall f: Fwd, s, u
      ensures Live(n', f, s, u) <==> Recorded(n', f, s, u)
      ensures Target(s, u) != Target(sid, uri) ==> (Live(n', f, s, u) <==> Live(n, f, s, u))
      ensures !Live(n', f, sid, uri)
    {
      assert Live(n, f, s, u) <==> Recorded(n, f, s, u);
      assert Live(n, f, sid, uri) <==> Recorded(n, f, sid, uri);
    }
  }

  lemma {:induction false} CancelAllKeepsExact(n: Node, sid: SessionId)
    requires TableExact(n)
    ensures TableExact(CancelAll(n, sid))
    ensures forall f: Fwd, u :: !Live(CancelAll(n, sid), f, sid, u)
    ensures forall f: Fwd, s, u | s != sid :: Live(CancelAll(n, sid), f, s, u) <==> Live(n, f, s, u)
  {
    var n' := CancelAll(n, sid);
    var m := Inner(n, sid);
    forall f | f in m.Values ensures f < |n.fwds| && n.fwds[f].sid == sid {
      var u :| u in m && m[u] == f;
      assert Recorded(n, f, sid, u);
      assert Live(n, f, sid, u);
    }
    forall f: Fwd, s, u
      ensures Live(n', f, s, u) <==> Recorded(n', f, s, u)
      ensures s != sid ==> (Live(n', f, s, u) <==> Live(n, f, s, u))
      ensures !Live(n', f, sid, u)
    {
      assert Live(n, f, s, u) <==> Recorded(n, f, s, u);
      assert Live(n, f, sid, u) <==> Recorded(n, f, sid, u);
    }
  }

  lemma {:induction false} NextKeepsInv(w: World, step: Step)
    requires Inv(w) && Enabled(w, step)
    ensures Inv(Next(w, step))
  {
    match step
    case DoSubscribe(n, sid, uri, accepted) =>
      SubscribeKeepsExact(w.nodes[n], sid, uri);
      RefusalKeepsExact(w.nodes[n], sid);
    case Consume(n) =>
      var e := w.topic[w.seen[n]];
      if e.Unsub? {
        UnsubscribeKeepsExact(w.nodes[n], e.sid, e.uri);
      } else if e.SessionDeleted? {
        CancelAllKeepsExact(w.nodes[n], e.sid);
      }
    case StartDelete(n, sid, _) => CancelAllKeepsExact(w.nodes[n], sid);
    case _ =>
  }

  lemma {:induction false} RunsKeepInv(w: World, steps: seq<Step>)
    requires Inv(w) && Legal(w, steps)
    ensures Inv(After(w, steps))
    decreases |steps|
  {
    if steps != [] {
      NextKeepsInv(w, steps[0]);
      RunsKeepInv(Next(w, steps[0]), steps[1..]);
    }
  }

  // ----- theorems over whole runs -----

  /** On every node of every run, live forwarders and table entries are the same thing. */
  lemma {:induction false} ForwardersMatchTable(steps: seq<Step>, n: NodeId)
    requires Legal(INITIAL, steps) && n in After(INITIAL, steps).nodes
    ensures TableExact(After(INITIAL, steps).nodes[n])
    ensures forall f: Fwd, g: Fwd, sid, uri ::
              Live(After(INITIAL, steps).nodes[n], f, sid, uri) && Live(After(INITIAL, steps).nodes[n], g, sid, uri) ==> f == g
  {
    RunsKeepInv(INITIAL, steps);
    var node := After(INITIAL, steps).nodes[n];
    assert forall f: Fwd, sid, uri :: Live(node, f, sid, uri) ==> Recorded(node, f, sid, uri);
  }

  ghost predicate NoneLive(w: World, n: NodeId, sid: SessionId, uri: Uri)
    requires n in w.nodes
  {
    forall f: Fwd :: !Live(w.nodes[n], f, sid, uri)
  }

  ghost predicate Silent(steps: seq<Step>, n: NodeId, sid: SessionId, uri: Uri) {
    forall i | 0 <= i < |steps| :: !(steps[i].DoSubscribe? && steps[i].n == n && steps[i].sid == sid && steps[i].uri == uri)
  }

  lemma {:induction false} NextKeepsNoneLive(w: World, step: Step, n: NodeId, sid: SessionId, uri: Uri)
    requires Inv(w) && Enabled(w, step) && n in w.nodes && NoneLive(w, n, sid, uri)
    requires !(step.DoSubscribe? && step.n == n && step.sid == sid && step.uri == uri)
    ensures n in Next(w, step).nodes && NoneLive(Next(w, step), n, sid, uri)
  {
    var node := w.nodes[n];
    match step
    case DoSubscribe(k, s, u, accepted) =>
      forall f: Fwd ensures !Live(Next(w, step).nodes[n], f, sid, uri) {
        assert !Live(node, f, sid, uri);
      }
    case Consume(k) =>
      var e := w.topic[w.seen[k]];
      if k == n && e.Unsub? {
        UnsubscribeKeepsExact(node, e.sid, e.uri);
      } else if k == n && e.SessionDeleted? {
        CancelAllKeepsExact(node, e.sid);
      }
    case StartDelete(k, s, _) => CancelAllKeepsExact(w.nodes[k], s);
    case _ =>
  }

  lemma {:induction false} StaysSilent(w: World, steps: seq<Step>, n: NodeId, sid: SessionId, uri: Uri)
    requires Inv(w) && Legal(w, steps) && n in w.nodes && NoneLive(w, n, sid, uri) && Silent(steps, n, sid, uri)
    ensures n in After(w, steps).nodes && NoneLive(After(w, steps), n, sid, uri)
    decreases |steps|
  {
    if steps != [] {
      NextKeepsNoneLive(w, steps[0], n, sid, uri);
      NextKeepsInv(w, steps[0]);
      StaysSilent(Next(w, steps[0]), steps[1..], n, sid, uri);
    }
  }

  /**
   Unsubscribe takes effect. Once a node consumes an unsubscribe event of an existing session
   it has no live forwarder for that session and URI, in any continuation, until it handles a
   new subscribe request for them.
   */
  lemma {:induction false} UnsubscribedUntilResubscribed(before: seq<Step>, after: seq<Step>, n: NodeId)
    requires Legal(INITIAL, before)
    requires var w := After(INITIAL, before);
      && Enabled(w, Consume(n))
      && w.topic[w.seen[n]].Unsub?
      && Loads(w, w.topic[w.seen[n]])
      && Legal(Next(w, Consume(n)), after)
      && Silent(after, n, w.topic[w.seen[n]].sid, w.topic[w.seen[n]].uri)
    ensures var w := After(INITIAL, before);
      var e := w.topic[w.seen[n]];
      var w' := After(Next(w, Consume(n)), after);
      n in w'.nodes && NoneLive(w', n, e.sid, e.uri)
  {
    RunsKeepInv(INITIAL, before);
    var w := After(INITIAL, before);
    var e := w.topic[w.seen[n]];
    UnsubscribeKeepsExact(w.nodes[n], e.sid, e.uri);
    NextKeepsInv(w, Consume(n));
    StaysSilent(Next(w, Consume(n)), after, n, e.sid, e.uri);
  }

  /**
   Deletion. The node that deletes a session tears its forwarders down at once; another node
   does so exactly when it consumes the event while the record still exists, and otherwise
   its table is left as it was.
   */
  lemma {:induction false} DeletionTearsDown(steps: seq<Step>, n: NodeId, sid: SessionId, user: UserId, uri: Uri)
    requires Legal(INITIAL, steps) && n in After(INITIAL, steps).nodes
    ensures var w := After(INITIAL, steps);
      && NoneLive(Next(w, StartDelete(n, sid, user)), n, sid, uri)
      && Next(w, StartDelete(n, sid, user)).topic == w.topic + [SessionDeleted(sid, user)]
    ensures var w := After(INITIAL, steps);
      Enabled(w, Consume(n)) && w.topic[w.seen[n]] == SessionDeleted(sid, user) ==>
        if sid in w.owner && w.owner[sid] == user && user != ""
        then NoneLive(Next(w, Consume(n)), n, sid, uri)
        else Next(w, Consume(n)).nodes[n] == w.nodes[n]
  {
    RunsKeepInv(INITIAL, steps);
    CancelAllKeepsExact(After(INITIAL, steps).nodes[n], sid);
  }

  // ----- a subscription lasts until it is ended -----

  lemma {:induction false} SubscribeStarts(n: Node, sid: SessionId, uri: Uri)
    requires TableExact(n)
    ensures exists f: Fwd :: Live(Subscribe(n, sid, uri), f, sid, uri)
    ensures forall f: Fwd, s, u | Target(s, u) != Target(sid, uri) :: Live(Subscribe(n, sid, uri), f, s, u) <==> Live(n, f, s, u)
  {
    var n' := Subscribe(n, sid, uri);
    SubscribeKeepsExact(n, sid, uri);
    var f := Inner(n', sid)[uri];
    assert Recorded(n', f, sid, uri);
    assert Live(n', f, sid, uri);
    forall f: Fwd, s, u | Target(s, u) != Target(sid, uri) ensures Live(n', f, s, u) <==> Live(n, f, s, u) {
    }
  }

  /** The step ends this node's subscription: it tears the session down, or consumes a loading event that does. */
  predicate Ends(w: World, step: Step, n: NodeId, sid: SessionId, uri: Uri)
    requires Enabled(w, step)
  {
    match step
    case StartDelete(k, s, _) => k == n && s == sid
    case Consume(k) =>
      var e := w.topic[w.seen[k]];
      k == n && Loads(w, e) && e.sid == sid && (e.Unsub? ==> e.uri == uri)
    case _ => false
  }

  predicate EndedDuring(w: World, steps: seq<Step>, n: NodeId, sid: SessionId, uri: Uri)
    requires Legal(w, steps)
    decreases |steps|
  {
    steps != [] && (Ends(w, steps[0], n, sid, uri) || EndedDuring(Next(w, steps[0]), steps[1..], n, sid, uri))
  }

  /** The forwarders of a node are only added to, and cancelled for good. */
  lemma {:induction false} NodeGrows(w: World, step: Step, n: NodeId)
    requires Enabled(w, step) && n in w.nodes
    ensures n in Next(w, step).nodes
    ensures var a, b := w.nodes[n], Next(w, step).nodes[n];
      a.cancelled <= b.cancelled && |a.fwds| <= |b.fwds| && b.fwds[..|a.fwds|] == a.fwds
  {
  }

  lemma {:induction false} LivesOnUnlessEnded(w: World, step: Step, n: NodeId, f: Fwd, sid: SessionId, uri: Uri)
    requires Inv(w) && Enabled(w, step) && n in w.nodes && Live(w.nodes[n], f, sid, uri)
    ensures n in Next(w, step).nodes && (Live(Next(w, step).nodes[n], f, sid, uri) <==> !Ends(w, step, n, sid, uri))
  {
    var node := w.nodes[n];
    match step
    case DoSubscribe(k, s, u, _) =>
    case Consume(k) =>
      var e := w.topic[w.seen[k]];
      if k == n && e.Unsub? {
        UnsubscribeKeepsExact(node, e.sid, e.uri);
      } else if k == n && e.SessionDeleted? {
        CancelAllKeepsExact(node, e.sid);
      }
    case StartDelete(k, s, _) => CancelAllKeepsExact(w.nodes[k], s);
    case _ =>
  }

  lemma {:induction false} CancelledStays(w: World, steps: seq<Step>, n: NodeId, f: Fwd)
    requires Legal(w, steps) && n in w.nodes && f in w.nodes[n].cancelled
    ensures n in After(w, steps).nodes && f in After(w, steps).nodes[n].cancelled
    decreases |steps|
  {
    if steps != [] {
      NodeGrows(w, steps[0], n);
      CancelledStays(Next(w, steps[0]), steps[1..], n, f);
    }
  }

  lemma {:induction false} LivesUntilEnded(w: World, steps: seq<Step>, n: NodeId, f: Fwd, sid: SessionId, uri: Uri)
    requires Inv(w) && Legal(w, steps) && n in w.nodes && Live(w.nodes[n], f, sid, uri)
    ensures n in After(w, steps).nodes
    ensures Live(After(w, steps).nodes[n], f, sid, uri) <==> !EndedDuring(w, steps, n, sid, uri)
    decreases |steps|
  {
    if steps != [] {
      var w' := Next(w, steps[0]);
      LivesOnUnlessEnded(w, steps[0], n, f, sid, uri);
      NextKeepsInv(w, steps[0]);
      NodeGrows(w, steps[0], n);
      if Ends(w, steps[0], n, sid, uri) {
        assert w'.nodes[n].fwds[f] == w'.nodes[n].fwds[..|w.nodes[n].fwds|][f];
        CancelledStays(w', steps[1..], n, f);
      } else {
        LivesUntilEnded(w', steps[1..], n, f, sid, uri);
      }
    }
  }

  /**
   Subscription. After an accepted subscribe exactly one forwarder serves the session and URI
   on that node, and it keeps doing so in every continuation if and only if the node neither
   consumes a loading unsubscribe of them nor tears the session down. No other target is
   affected.
   */
  lemma {:induction false} SubscriptionLivesUntilEnded(before: seq<Step>, n: NodeId, sid: SessionId, uri: Uri, after: seq<Step>)
    requires Legal(INITIAL, before) && Enabled(After(INITIAL, before), DoSubscribe(n, sid, uri, true))
    requires Legal(Next(After(INITIAL, before), DoSubscribe(n, sid, uri, true)), after)
    ensures var w := After(INITIAL, before);
      var w1 := Next(w, DoSubscribe(n, sid, uri, true));
      && (forall f: Fwd, s, u | Target(s, u) != Target(sid, uri) :: Live(w1.nodes[n], f, s, u) <==> Live(w.nodes[n], f, s, u))
      && exists f: Fwd ::
           && (forall g: Fwd :: Live(w1.nodes[n], g, sid, uri) <==> g == f)
           && n in After(w1, after).nodes
           && (Live(After(w1, after).nodes[n], f, sid, uri) <==> !EndedDuring(w1, after, n, sid, uri))
  {
    RunsKeepInv(INITIAL, before);
    var w := After(INITIAL, before);
    var w1 := Next(w, DoSubscribe(n, sid, uri, true));
    NextKeepsInv(w, DoSubscribe(n, sid, uri, true));
    SubscribeStarts(w.nodes[n], sid, uri);
    var f: Fwd :| Live(w1.nodes[n], f, sid, uri);
    OnlyOneLive(w1.nodes[n], f, sid, uri);
    LivesUntilEnded(w1, after, n, f, sid, uri);
  }

  lemma {:induction false} OnlyOneLive(n: Node, f: Fwd, sid: SessionId, uri: Uri)
    requires TableExact(n) && Live(n, f, sid, uri)
    ensures forall g: Fwd :: Live(n, g, sid, uri) <==> g == f
  {
    forall g: Fwd | Live(n, g, sid, uri) ensures g == f {
      assert Recorded(n, f, sid, uri) && Recorded(n, g, sid, uri);
    }
  }

  /** A refused subscribe starts nothing and ends nothing. */
  lemma {:induction false} RefusalChangesNothing(w: World, n: NodeId, sid: SessionId, uri: Uri)
    requires n in w.nodes && uri !in Inner(w.nodes[n], sid)
    ensures forall f: Fwd, s, u :: Live(Next(w, DoSubscribe(n, sid, uri, false)).nodes[n], f, s, u) <==> Live(w.nodes[n], f, s, u)
  {
  }

  lemma {:induction false} TopicGrows(w: World, steps: seq<Step>)
    requires Legal(w, steps)
    ensures |w.topic| <= |After(w, steps).topic| && After(w, steps).topic[..|w.topic|] == w.topic
    decreases |steps|
  {
    if steps != [] {
      var w' := Next(w, steps[0]);
      assert |w.topic| <= |w'.topic| && w'.topic[..|w.topic|] == w.topic;
      TopicGrows(w', steps[1..]);
      assert After(w', steps[1..]).topic[..|w'.topic|][..|w.topic|] == w.topic;
    }
  }

  lemma {:induction false} SeenGrows(w: World, steps: seq<Step>, n: NodeId)
    requires Legal(w, steps) && n in w.seen
    ensures n in After(w, steps).seen && w.seen[n] <= After(w, steps).seen[n]
    decreases |steps|
  {
    if steps != [] {
      SeenGrows(Next(w, steps[0]), steps[1..], n);
    }
  }

  /** A node consumes only what is published after it joined. */
  lemma {:induction false} NodesMissThePast(before: seq<Step>, n: NodeId, after: seq<Step>)
    requires Legal(INITIAL, before) && Enabled(After(INITIAL, before), Join(n))
    requires Legal(Next(After(INITIAL, before), Join(n)), after)
    ensures var w := After(Next(After(INITIAL, before), Join(n)), after);
      n in w.seen && |After(INITIAL, before).topic| <= w.seen[n]
  {
    SeenGrows(Next(After(INITIAL, before), Join(n)), after, n);
  }

  /**
   Fan-out. What an unsubscribe request publishes is what every node consumes at its position:
   where the session still loads, its forwarder for that URI is then gone.
   */
  lemma {:induction false} UnsubscribeReachesEveryNode(before: seq<Step>, sid: SessionId, user: UserId, uri: Uri, between: seq<Step>, n: NodeId)
    requires Legal(INITIAL, before)
    requires Legal(Next(After(INITIAL, before), PublishUnsubscribe(sid, user, uri)), between)
    requires var w := After(Next(After(INITIAL, before), PublishUnsubscribe(sid, user, uri)), between);
      Enabled(w, Consume(n)) && w.seen[n] == |After(INITIAL, before).topic|
    ensures var w := After(Next(After(INITIAL, before), PublishUnsubscribe(sid, user, uri)), between);
      && (sid in w.owner && w.owner[sid] == user != "" ==> NoneLive(Next(w, Consume(n)), n, sid, uri))
      && (!(sid in w.owner && w.owner[sid] == user != "") ==> Next(w, Consume(n)).nodes == w.nodes)
  {
    RunsKeepInv(INITIAL, before);
    var w0 := After(INITIAL, before);
    var w1 := Next(w0, PublishUnsubscribe(sid, user, uri));
    NextKeepsInv(w0, PublishUnsubscribe(sid, user, uri));
    RunsKeepInv(w1, between);
    var w := After(w1, between);
    TopicGrows(w1, between);
    assert w.topic[|w0.topic|] == w.topic[..|w1.topic|][|w0.topic|] == Unsub(sid, user, uri);
    UnsubscribeKeepsExact(w.nodes[n], sid, uri);
    assert w.nodes[n := w.nodes[n]] == w.nodes;
  }

  /** An unsubscribe disturbs nothing but its own session and URI, on any node. */
  lemma {:induction false} UnsubscribeIsSelective(steps: seq<Step>, n: NodeId, f: Fwd, sid: SessionId, uri: Uri)
    requires Legal(INITIAL, steps)
    requires var w := After(INITIAL, steps);
      && Enabled(w, Consume(n))
      && w.topic[w.seen[n]].Unsub?
      && Target(sid, uri) != Target(w.topic[w.seen[n]].sid, w.topic[w.seen[n]].uri)
    ensures var w := After(INITIAL, steps);
      Live(Next(w, Consume(n)).nodes[n], f, sid, uri) <==> Live(w.nodes[n], f, sid, uri)
  {
    RunsKeepInv(INITIAL, steps);
    var w := After(INITIAL, steps);
    UnsubscribeKeepsExact(w.nodes[n], w.topic[w.seen[n]].sid, w.topic[w.seen[n]].uri);
  }
}
