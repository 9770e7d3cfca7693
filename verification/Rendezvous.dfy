/**
 How the engine matches client responses and cancellations to the requests that await
 them (`internal/engine/engine.go`): the rendezvous tables `rdvChans` and `rdvClosers`, and
 the table `toolCtxCancels` of running tool calls. Channels and contexts are identified by
 the call that made them.
 */
module Rendezvous {
  import opened Wrappers

  type CallId = nat
  type ReqId = string
  type SessionId = string

  datatype Msg = Msg(id: ReqId, body: string)

  /** A one-slot response channel; `closes` counts how often `close` ran on it. */
  datatype Chan = Chan(buffer: Option<Msg>, closes: nat)

  datatype Tables = Tables(
    rdvChans: map<ReqId, CallId>,
    rdvClosers: map<ReqId, CallId>,
    chans: map<CallId, Chan>,
    toolCancels: map<ReqId, CallId>,
    cancelled: set<CallId>)          // tool calls whose context a cancellation reached

  const EMPTY := Tables(map[], map[], map[], map[], {})

  function CloseChan(chans: map<CallId, Chan>, k: CallId): map<CallId, Chan> {
    if k in chans then chans[k := chans[k].(closes := chans[k].closes + 1)] else chans
  }

  function Open(t: Tables, id: ReqId, k: CallId): Tables {
    t.(rdvChans := t.rdvChans[id := k], rdvClosers := t.rdvClosers[id := k], chans := t.chans[k := Chan(None, 0)])
  }

  /** The deferred clean-up of a rendezvous, also run by a cancellation. */
  function Shut(t: Tables, id: ReqId): Tables {
    t.(chans := if id in t.rdvClosers then CloseChan(t.chans, t.rdvClosers[id]) else t.chans,
    rdvClosers := t.rdvClosers - {id},
    rdvChans := t.rdvChans - {id})
  }

  /** First half of a cancellation, under the tool table's lock: cancel the running tool of that id. */
  function CancelTool(t: Tables, id: ReqId): Tables {
    if id in t.toolCancels then t.(cancelled := t.cancelled + {t.toolCancels[id]}) else t
  }

  /** Both halves; the second, under the rendezvous lock, shuts the rendezvous of that id. */
  function Cancel(t: Tables, id: ReqId): Tables {
    if id == "" then t else Shut(CancelTool(t, id), id)
  }

  /** A send on an open channel; a full channel drops the message. */
  function Send(t: Tables, k: CallId, m: Msg): Tables {
    if k in t.chans && t.chans[k].buffer.None? then t.(chans := t.chans[k := t.chans[k].(buffer := Some(m))]) else t
  }

  /** A response reaches the channel registered under its id. */
  function Deliver(t: Tables, m: Msg): Tables {
    if m.id != "" && m.id in t.rdvChans then Send(t, t.rdvChans[m.id], m) else t
  }

  /** A tool call registers its cancel function unless its request id is already running. */
  function StartTool(t: Tables, id: ReqId, k: CallId): (Tables, bool) {
    if id == "" || id in t.toolCancels then (t, false)
    else (t.(toolCancels := t.toolCancels[id := k]), true)
  }

  function FinishTool(t: Tables, id: ReqId): Tables {
    t.(toolCancels := t.toolCancels - {id})
  }

  /** The engine's coordination fields, updated in place. */
  class Coordinator {
    var rdvChans: map<ReqId, CallId>
    var rdvClosers: map<ReqId, CallId>
    var chans: map<CallId, Chan>
    var toolCancels: map<ReqId, CallId>
    var cancelled: set<CallId>

    ghost function Contents(): Tables
      reads this
    {
      Tables(rdvChans, rdvClosers, chans, toolCancels, cancelled)
    }

    constructor ()
      ensures Contents() == EMPTY
    {
      rdvChans, rdvClosers, chans, toolCancels, cancelled := map[], map[], map[], map[], {};
    }

    method CreateRendezVous(id: ReqId, k: CallId)
      modifies this
      ensures Contents() == Open(old(Contents()), id, k)
    {
      chans := chans[k := Chan(None, 0)];
      rdvChans := rdvChans[id := k];
      rdvClosers := rdvClosers[id := k];
    }

    method CloseRendezVous(id: ReqId)
      modifies this
      ensures Contents() == Shut(old(Contents()), id)
    {
      if id in rdvClosers {
        chans := CloseChan(chans, rdvClosers[id]);
        rdvClosers := rdvClosers - {id};
      }
      rdvChans := rdvChans - {id};
    }

    method CancelInFlightRequest(id: ReqId) returns (hadCancel: bool)
      modifies this
      ensures Contents() == Cancel(old(Contents()), id)
      ensures hadCancel == (id != "" && id in old(toolCancels))
      ensures forall k :: k in cancelled <==> k in old(cancelled) || (hadCancel && old(toolCancels)[id] == k)
      ensures toolCancels == old(toolCancels)
      ensures id == "" ==> rdvChans == old(rdvChans) && rdvClosers == old(rdvClosers) && chans == old(chans)
      ensures id != "" ==> id !in rdvChans && id !in rdvClosers
      ensures forall x | x != id :: (x in rdvChans <==> x in old(rdvChans)) && (x in rdvChans ==> rdvChans[x] == old(rdvChans)[x])
      ensures forall k | k in old(chans) ::
        && k in chans
        && chans[k].buffer == old(chans)[k].buffer
        && chans[k].closes == old(chans)[k].closes + if id != "" && id in old(rdvClosers) && old(rdvClosers)[id] == k then 1 else 0
    {
      if id == "" {
        return false;
      }
      hadCancel := id in toolCancels;
      if hadCancel {
        cancelled := cancelled + {toolCancels[id]};
      }
      CloseRendezVous(id);
    }

    method DeliverResponse(m: Msg)
      modifies this
      ensures Contents() == Deliver(old(Contents()), m)
      ensures rdvChans == old(rdvChans) && rdvClosers == old(rdvClosers) && chans.Keys == old(chans).Keys
      ensures forall k | k in old(chans) ::
        && chans[k].closes == old(chans)[k].closes
        && chans[k].buffer ==
             if m.id != "" && m.id in old(rdvChans) && old(rdvChans)[m.id] == k && old(chans)[k].buffer.None? then Some(m)
             else old(chans)[k].buffer
    {
      if m.id != "" && m.id in rdvChans {
        var k := rdvChans[m.id];
        if k in chans && chans[k].buffer.None? {
          chans := chans[k := chans[k].(buffer := Some(m))];
        }
      }
    }

    method RegisterTool(id: ReqId, k: CallId) returns (ok: bool)
      modifies this
      ensures (Contents(), ok) == StartTool(old(Contents()), id, k)
      ensures ok <==> id != "" && id !in old(toolCancels)
      ensures toolCancels == if ok then old(toolCancels)[id := k] else old(toolCancels)
    {
      if id == "" || id in toolCancels {
        return false;
      }
      toolCancels := toolCancels[id := k];
      ok := true;
    }

    method UnregisterTool(id: ReqId)
      modifies this
      ensures Contents() == FinishTool(old(Contents()), id)
    {
      toolCancels := toolCancels - {id};
    }
  }

  // ----- runs -----

  datatype Phase =
    | Waiting                       // blocked on its rendezvous channel
    | Woken(result: Option<Msg>)    // received a message, or saw the channel closed
    | GaveUp                        // its context ended first
    | Ended(result: Option<Msg>)    // the deferred close has run
    | Running                       // a tool call in progress
    | Refused                       // a tool call with a duplicate request id
    | Returned                      // a tool call that came back

  datatype Call = Call(sid: SessionId, id: ReqId, phase: Phase)

  datatype Sending = Sending(m: Msg, k: CallId)

  datatype World = World(
    t: Tables,
    calls: map<CallId, Call>,
    got: seq<(CallId, Msg)>,
    cancels: map<nat, ReqId>,    // cancellations between their two halves
    sends: map<nat, Sending>,    // responses whose channel was looked up and not yet sent on
    crashed: bool)               // a send hit a closed channel

  datatype Step =
    | DoOpen(k: CallId, sid: SessionId, id: ReqId)
    | DoLookup(d: nat, m: Msg)                      // a response finds its channel, under the lock
    | DoSend(d: nat)                                // and is sent on it, outside the lock
    | DoCancel(n: nat, sid: SessionId, id: ReqId)   // a session's cancellation, first half
    | DoShut(n: nat)                                // its second half
    | DoReceive(k: CallId)
    | DoGiveUp(k: CallId)
    | DoEnd(k: CallId)
    | DoTool(k: CallId, sid: SessionId, id: ReqId)
    | DoToolReturn(k: CallId)

  const INITIAL := World(EMPTY, map[], [], map[], map[], false)

  /** Outgoing request ids are freshly generated, so no two rendezvous share one. */
  predicate FreshId(w: World, id: ReqId) {
    id != "" && forall k | k in w.calls && IsRendezvous(w.calls[k].phase) :: w.calls[k].id != id
  }

  predicate IsRendezvous(p: Phase) {
    p.Waiting? || p.Woken? || p.GaveUp? || p.Ended?
  }

  predicate InPhase(w: World, k: CallId, p: Phase) {
    k in w.calls && w.calls[k].phase == p
  }

  predicate Enabled(w: World, step: Step) {
    !w.crashed &&
    match step
    case DoLookup(d, _) => d !in w.sends
    case DoSend(d) => d in w.sends
    case DoOpen(k, _, id) => k !in w.calls && FreshId(w, id)
    case DoCancel(n, _, id) => n !in w.cancels && id != ""
    case DoShut(n) => n in w.cancels
    case DoReceive(k) =>
      InPhase(w, k, Waiting) && k in w.t.chans && (w.t.chans[k].buffer.Some? || w.t.chans[k].closes > 0)
    case DoGiveUp(k) => InPhase(w, k, Waiting)
    case DoEnd(k) => k in w.calls && (w.calls[k].phase.Woken? || w.calls[k].phase.GaveUp?)
    case DoTool(k, _, _) => k !in w.calls
    case DoToolReturn(k) => InPhase(w, k, Running)
  }

  function Next(w: World, step: Step): World
    requires Enabled(w, step)
  {
    match step
    case DoOpen(k, sid, id) => w.(t := Open(w.t, id, k), calls := w.calls[k := Call(sid, id, Waiting)])
    case DoLookup(d, m) =>
      if m.id != "" && m.id in w.t.rdvChans then w.(sends := w.sends[d := Sending(m, w.t.rdvChans[m.id])]) else w
    case DoSend(d) =>
      var x := w.sends[d];
      if x.k in w.t.chans && w.t.chans[x.k].closes > 0 then w.(crashed := true, sends := w.sends - {d})
      else w.(t := Send(w.t, x.k, x.m), sends := w.sends - {d})
    case DoCancel(n, _, id) => w.(t := CancelTool(w.t, id), cancels := w.cancels[n := id])
    case DoShut(n) => w.(t := Shut(w.t, w.cancels[n]), cancels := w.cancels - {n})
    case DoReceive(k) =>
      // a buffered message is received before the closing is seen
      var c := w.t.chans[k];
      w.(t := w.t.(chans := w.t.chans[k := c.(buffer := None)]),
      calls := w.calls[k := w.calls[k].(phase := Woken(c.buffer))],
      got := if c.buffer.Some? then w.got + [(k, c.buffer.value)] else w.got)
    case DoGiveUp(k) => w.(calls := w.calls[k := w.calls[k].(phase := GaveUp)])
    case DoEnd(k) =>
      var c := w.calls[k];
      w.(t := Shut(w.t, c.id),
      calls := w.calls[k := c.(phase := Ended(if c.phase.Woken? then c.phase.result else None))])
    case DoTool(k, sid, id) =>
      var (t', ok) := StartTool(w.t, id, k);
      w.(t := t', calls := w.calls[k := Call(sid, id, if ok then Running else Refused)])
    case DoToolReturn(k) =>
      w.(t := FinishTool(w.t, w.calls[k].id), calls := w.calls[k := w.calls[k].(phase := Returned)])
  }

  predicate Legal(w: World, steps: seq<Step>)
    decreases |steps|
  {
    steps == [] || (Enabled(w, steps[0]) && Legal(Next(w, steps[0]), steps[1..]))
  }

  function After(w: World, steps: seq<Step>): World
    requires Legal(w, steps)
    decreases |steps|
  {
    if steps == [] then w else After(Next(w, steps[0]), steps[1..])
  }

  // ----- the invariant -----

  /** Both tables hold exactly the rendezvous whose channel is still open. */
  ghost predicate TablesAgree(w: World) {
    && w.t.rdvChans == w.t.rdvClosers
    && (forall id | id in w.t.rdvChans ::
          var k := w.t.rdvChans[id];
          k in w.calls && IsRendezvous(w.calls[k].phase) && w.calls[k].id == id && k in w.t.chans && w.t.chans[k].closes == 0)
  }

  ghost predicate ClosedOnce(w: World, k: CallId)
    requires k in w.calls
  {
    && k in w.t.chans
    && w.t.chans[k].closes <= 1
    && (w.t.chans[k].closes == 0 ==> w.calls[k].id in w.t.rdvChans && w.t.rdvChans[w.calls[k].id] == k)
    && (w.calls[k].phase.Ended? ==> w.t.chans[k].closes == 1)
  }

  ghost predicate ChannelsClosedOnce(w: World) {
    forall k | k in w.calls && IsRendezvous(w.calls[k].phase) :: ClosedOnce(w, k)
  }

  ghost predicate BuffersMatch(w: World) {
    forall k | k in w.t.chans ::
      && k in w.calls
      && IsRendezvous(w.calls[k].phase)
      && (w.t.chans[k].buffer.Some? ==> w.t.chans[k].buffer.value.id == w.calls[k].id)
  }

  ghost predicate SendsMatch(w: World) {
    forall d | d in w.sends ::
      && w.sends[d].k in w.calls
      && w.sends[d].k in w.t.chans
      && IsRendezvous(w.calls[w.sends[d].k].phase)
      && w.sends[d].m.id == w.calls[w.sends[d].k].id
  }

  ghost predicate ReceiptsMatch(w: World) {
    && (forall a | 0 <= a < |w.got| ::
          var k := w.got[a].0;
          k in w.calls && w.got[a].1.id == w.calls[k].id && IsRendezvous(w.calls[k].phase) && !w.calls[k].phase.Waiting?)
    && (forall a, b | 0 <= a < b < |w.got| :: w.got[a].0 != w.got[b].0)
  }

  ghost predicate IdsAreFresh(w: World) {
    forall k, l | k in w.calls && l in w.calls && IsRendezvous(w.calls[k].phase) && IsRendezvous(w.calls[l].phase)
      && w.calls[k].id == w.calls[l].id :: k == l
  }

  /** The cancel table is exactly the set of running tool calls, keyed by their id. */
  ghost predicate ToolTableExact(w: World) {
    && (forall id | id in w.t.toolCancels :: InPhase(w, w.t.toolCancels[id], Running) && w.calls[w.t.toolCancels[id]].id == id)
    && (forall k | InPhase(w, k, Running) :: w.calls[k].id in w.t.toolCancels && w.t.toolCancels[w.calls[k].id] == k)
  }

  ghost predicate Inv(w: World) {
    TablesAgree(w) && ChannelsClosedOnce(w) && BuffersMatch(w) && SendsMatch(w) && ReceiptsMatch(w) && IdsAreFresh(w) && ToolTableExact(w)
  }

  /** Shutting an id closes exactly the channel registered under it. */
  lemma {:induction false} ShutEffect(t: Tables, id: ReqId)
    requires t.rdvChans == t.rdvClosers && forall x | x in t.rdvChans :: t.rdvChans[x] in t.chans
    ensures var t' := Shut(t, id);
      && t'.rdvChans == t'.rdvClosers == t.rdvChans - {id}
      && t'.chans.Keys == t.chans.Keys
      && forall k | k in t.chans ::
           && t'.chans[k].buffer == t.chans[k].buffer
           && t'.chans[k].closes == t.chans[k].closes + if id in t.rdvChans && t.rdvChans[id] == k then 1 else 0
  {
  }

  /** A call once made keeps its id, and a rendezvous stays one. */
  lemma {:induction false} CallsPersist(w: World, step: Step)
    requires Enabled(w, step)
    ensures var w' := Next(w, step);
      forall k | k in w.calls ::
        && k in w'.calls
        && w'.calls[k].id == w.calls[k].id
        && w'.calls[k].sid == w.calls[k].sid
        && (IsRendezvous(w'.calls[k].phase) <==> IsRendezvous(w.calls[k].phase))
  {
  }

  // ----- what a step does to the tables, to a channel and to a call -----

  predicate Sound(t: Tables) {
    t.rdvChans == t.rdvClosers && forall x | x in t.rdvChans :: t.rdvChans[x] in t.chans
  }

  /** The id whose rendezvous the step shuts, if any. */
  function ShutId(w: World, step: Step): Option<ReqId>
    requires Enabled(w, step)
  {
    match step
    case DoShut(n) => Some(w.cancels[n])
    case DoEnd(k) => Some(w.calls[k].id)
    case _ => None
  }

  lemma {:induction false} TablesAfter(w: World, step: Step)
    requires Sound(w.t) && Enabled(w, step)
    ensures var t' := Next(w, step).t;
      && t'.rdvChans == t'.rdvClosers
      && t'.rdvChans ==
           if ShutId(w, step).Some? then w.t.rdvChans - {ShutId(w, step).value}
           else if step.DoOpen? then w.t.rdvChans[step.id := step.k]
           else w.t.rdvChans
  {
  }

  lemma {:induction false} ChanAfterShut(w: World, step: Step, k: CallId)
    requires Sound(w.t) && Enabled(w, step) && ShutId(w, step).Some? && k in w.t.chans
    ensures var t' := Next(w, step).t;
      var id := ShutId(w, step).value;
      && k in t'.chans
      && t'.chans[k].buffer == w.t.chans[k].buffer
      && t'.chans[k].closes == w.t.chans[k].closes + if id in w.t.rdvChans && w.t.rdvChans[id] == k then 1 else 0
  {
    ShutEffect(w.t, ShutId(w, step).value);
  }

  lemma {:induction false} ChanAfterOther(w: World, step: Step, k: CallId)
    requires Enabled(w, step) && ShutId(w, step).None? && k in w.calls && k in w.t.chans
    ensures var t' := Next(w, step).t;
      && k in t'.chans
      && t'.chans[k].closes == w.t.chans[k].closes
      && t'.chans[k].buffer ==
           if step.DoReceive? && step.k == k then None
           else if step.DoSend? && w.sends[step.d].k == k && w.t.chans[k].closes == 0 && w.t.chans[k].buffer.None? then Some(w.sends[step.d].m)
           else w.t.chans[k].buffer
  {
    match step
    case DoOpen(_, _, _) =>
    case DoCancel(_, _, _) =>
    case DoLookup(_, _) =>
    case DoSend(_) =>
    case DoReceive(_) =>
    case DoGiveUp(_) =>
    case DoTool(_, _, _) =>
    case DoToolReturn(_) =>
  }

  lemma {:induction false} CallAfter(w: World, step: Step, k: CallId)
    requires Enabled(w, step) && k in w.calls
    ensures var w' := Next(w, step);
      && k in w'.calls
      && w'.calls[k] == w.calls[k].(phase :=
           match step
           case DoReceive(l) => if l == k then Woken(w.t.chans[k].buffer) else w.calls[k].phase
           case DoGiveUp(l) => if l == k then GaveUp else w.calls[k].phase
           case DoEnd(l) =>
             if l == k then Ended(if w.calls[k].phase.Woken? then w.calls[k].phase.result else None) else w.calls[k].phase
           case DoToolReturn(l) => if l == k then Returned else w.calls[k].phase
           case _ => w.calls[k].phase)
  {
  }

  lemma {:induction false} TablesSurviveShut(w: World, w': World, id: ReqId)
    requires TablesAgree(w)
    requires w'.t.rdvChans == Shut(w.t, id).rdvChans && w'.t.rdvClosers == Shut(w.t, id).rdvClosers && w'.t.chans == Shut(w.t, id).chans
    requires forall k | k in w.calls ::
      k in w'.calls && w'.calls[k].id == w.calls[k].id && (IsRendezvous(w'.calls[k].phase) <==> IsRendezvous(w.calls[k].phase))
    ensures TablesAgree(w')
  {
    ShutEffect(w.t, id);
  }

  lemma {:induction false} NextKeepsTables(w: World, step: Step)
    requires TablesAgree(w) && Enabled(w, step)
    ensures TablesAgree(Next(w, step))
  {
    var w' := Next(w, step);
    CallsPersist(w, step);
    match step
    case DoShut(n) => TablesSurviveShut(w, w', w.cancels[n]);
    case DoEnd(k) => TablesSurviveShut(w, w', w.calls[k].id);
    case DoOpen(_, _, _) =>
    case DoCancel(_, _, _) =>
    case DoLookup(_, _) =>
    case DoSend(_) =>
    case DoReceive(_) =>
    case DoGiveUp(_) =>
    case DoTool(_, _, _) =>
    case DoToolReturn(_) =>
  }

  lemma {:induction false} NextKeepsFreshIds(w: World, step: Step)
    requires IdsAreFresh(w) && Enabled(w, step)
    ensures IdsAreFresh(Next(w, step))
  {
    var w' := Next(w, step);
    CallsPersist(w, step);
    assert forall k | k in w'.calls && IsRendezvous(w'.calls[k].phase) ::
        if step.DoOpen? && k == step.k then w'.calls[k].id == step.id
        else k in w.calls && IsRendezvous(w.calls[k].phase) && w'.calls[k].id == w.calls[k].id;
  }

  lemma {:induction false} NextKeepsClosedOnce(w: World, step: Step, k: CallId)
    requires TablesAgree(w) && Enabled(w, step) && k in w.calls && ClosedOnce(w, k)
    ensures ClosedOnce(Next(w, step), k)
  {
    CallAfter(w, step, k);
    TablesAfter(w, step);
    if ShutId(w, step).Some? {
      ChanAfterShut(w, step, k);
    } else {
      ChanAfterOther(w, step, k);
    }
  }

  lemma {:induction false} NextKeepsChannels(w: World, step: Step)
    requires TablesAgree(w) && ChannelsClosedOnce(w) && Enabled(w, step)
    ensures ChannelsClosedOnce(Next(w, step))
  {
    forall k | k in Next(w, step).calls && IsRendezvous(Next(w, step).calls[k].phase)
      ensures ClosedOnce(Next(w, step), k)
    {
      CallsPersist(w, step);
      if k in w.calls {
        NextKeepsClosedOnce(w, step, k);
      }
    }
  }

  lemma {:induction false} NextKeepsBuffers(w: World, step: Step)
    requires TablesAgree(w) && BuffersMatch(w) && SendsMatch(w) && Enabled(w, step)
    ensures BuffersMatch(Next(w, step))
  {
    CallsPersist(w, step);
    match step
    case DoShut(n) => ShutEffect(w.t, w.cancels[n]);
    case DoEnd(k) => ShutEffect(w.t, w.calls[k].id);
    case DoOpen(_, _, _) =>
    case DoCancel(_, _, _) =>
    case DoLookup(_, _) =>
    case DoSend(_) =>
    case DoReceive(_) =>
    case DoGiveUp(_) =>
    case DoTool(_, _, _) =>
    case DoToolReturn(_) =>
  }

  /** The methods are the steps of a run with nothing in between. */
  lemma {:induction false} CancelIsTwoSteps(w: World, n: nat, sid: SessionId, id: ReqId)
    requires Enabled(w, DoCancel(n, sid, id))
    ensures Next(Next(w, DoCancel(n, sid, id)), DoShut(n)).t == Cancel(w.t, id)
  {
  }

  lemma {:induction false} DeliveryIsTwoSteps(w: World, d: nat, m: Msg)
    requires TablesAgree(w) && Enabled(w, DoLookup(d, m))
    ensures var w' := Next(w, DoLookup(d, m));
      if Enabled(w', DoSend(d)) then !Next(w', DoSend(d)).crashed && Next(w', DoSend(d)).t == Deliver(w.t, m)
      else w'.t == Deliver(w.t, m)
  {
  }

  /** No channel is ever forgotten. */
  lemma {:induction false} ChannelsPersist(w: World, step: Step)
    requires TablesAgree(w) && Enabled(w, step)
    ensures w.t.chans.Keys <= Next(w, step).t.chans.Keys
  {
  }

  lemma {:induction false} NextKeepsSends(w: World, step: Step)
    requires TablesAgree(w) && SendsMatch(w) && Enabled(w, step)
    ensures SendsMatch(Next(w, step))
  {
    CallsPersist(w, step);
    ChannelsPersist(w, step);
    var w' := Next(w, step);
    forall d | d in w'.sends
      ensures w'.sends[d].k in w'.calls && w'.sends[d].k in w'.t.chans
      ensures IsRendezvous(w'.calls[w'.sends[d].k].phase) && w'.sends[d].m.id == w'.calls[w'.sends[d].k].id
    {
      if !(d in w.sends && w'.sends[d] == w.sends[d]) {
        assert step.DoLookup? && step.m.id in w.t.rdvChans && w'.sends[d] == Sending(step.m, w.t.rdvChans[step.m.id]);
      }
    }
  }

  lemma {:induction false} NextKeepsReceipts(w: World, step: Step)
    requires BuffersMatch(w) && ReceiptsMatch(w) && Enabled(w, step)
    ensures ReceiptsMatch(Next(w, step))
  {
  }

  /** Shutting a rendezvous or delivering a response does not touch the tool table. */
  lemma {:induction false} ToolsUntouched(w: World, step: Step)
    requires Enabled(w, step) && !step.DoTool? && !step.DoToolReturn?
    ensures var w' := Next(w, step);
      && w'.t.toolCancels == w.t.toolCancels
      && (forall k :: InPhase(w', k, Running) <==> InPhase(w, k, Running))
  {
  }

  lemma {:induction false} NextKeepsTools(w: World, step: Step)
    requires ToolTableExact(w) && Enabled(w, step)
    ensures ToolTableExact(Next(w, step))
  {
    match step
    case DoTool(k, sid, id) => ToolStarts(w, k, sid, id);
    case DoToolReturn(k) => ToolReturns(w, k);
    case _ =>
      CallsPersist(w, step);
      ToolsUntouched(w, step);
  }

  lemma {:induction false} ToolStarts(w: World, k: CallId, sid: SessionId, id: ReqId)
    requires ToolTableExact(w) && Enabled(w, DoTool(k, sid, id))
    ensures ToolTableExact(Next(w, DoTool(k, sid, id)))
  {
    var w' := Next(w, DoTool(k, sid, id));
    assert forall l :: InPhase(w', l, Running) <==> InPhase(w, l, Running) || (l == k && StartTool(w.t, id, k).1);
  }

  lemma {:induction false} ToolReturns(w: World, k: CallId)
    requires ToolTableExact(w) && Enabled(w, DoToolReturn(k))
    ensures ToolTableExact(Next(w, DoToolReturn(k)))
  {
    var w' := Next(w, DoToolReturn(k));
    assert forall l :: InPhase(w', l, Running) <==> InPhase(w, l, Running) && l != k;
  }

  lemma {:induction false} NextKeepsInv(w: World, step: Step)
    requires Inv(w) && Enabled(w, step)
    ensures Inv(Next(w, step))
  {
    NextKeepsTables(w, step);
    NextKeepsFreshIds(w, step);
    NextKeepsChannels(w, step);
    NextKeepsBuffers(w, step);
    NextKeepsSends(w, step);
    NextKeepsReceipts(w, step);
    NextKeepsTools(w, step);
  }

  lemma {:induction false} RunsKeepInv(w: World, steps: seq<Step>)
    requires Inv(w) && Legal(w, steps)
    ensures Inv(After(w, steps))
    decreases |steps|
  {
    if steps != [] {
      NextKeepsInv(w, steps[0]);
      RunsKeepInv(Next(w, steps[0]), steps[1..]);
    }
  }

  // ----- theorems over whole runs -----

  /**
   Rendezvous safety. After any run the two tables are equal and list only open channels, no
   channel is closed twice, a finished call has closed its own, and every call received at
   most one message, carrying its own id.
   */
  lemma {:induction false} RendezvousSafety(steps: seq<Step>)
    requires Legal(INITIAL, steps)
    ensures var w := After(INITIAL, steps);
      && w.t.rdvChans == w.t.rdvClosers
      && (forall id | id in w.t.rdvChans :: w.t.rdvChans[id] in w.t.chans && w.t.chans[w.t.rdvChans[id]].closes == 0)
      && (forall k | k in w.t.chans :: w.t.chans[k].closes <= 1)
      && (forall k | k in w.calls && w.calls[k].phase.Ended? :: k in w.t.chans && w.t.chans[k].closes == 1)
      && (forall a | 0 <= a < |w.got| :: w.got[a].0 in w.calls && w.got[a].1.id == w.calls[w.got[a].0].id)
      && (forall a, b | 0 <= a < b < |w.got| :: w.got[a].0 != w.got[b].0)
  {
    RunsKeepInv(INITIAL, steps);
  }

  /** The only thing the call can still come back with is this message or its own timeout. */
  ghost predicate BoundTo(w: World, k: CallId, m: Msg) {
    && k in w.calls
    && k in w.t.chans
    && match w.calls[k].phase
       case Waiting => w.t.chans[k].buffer == Some(m)
       case Woken(r) => r == Some(m)
       case GaveUp => true
       case Ended(r) => r == Some(m) || r == None
       case _ => false
  }

  lemma {:induction false} NextKeepsBound(w: World, step: Step, k: CallId, m: Msg)
    requires TablesAgree(w) && Enabled(w, step) && BoundTo(w, k, m)
    ensures BoundTo(Next(w, step), k, m)
  {
    CallAfter(w, step, k);
    if ShutId(w, step).Some? {
      ChanAfterShut(w, step, k);
    } else {
      ChanAfterOther(w, step, k);
    }
  }

  lemma {:induction false} BoundStays(w: World, steps: seq<Step>, k: CallId, m: Msg)
    requires Inv(w) && Legal(w, steps) && BoundTo(w, k, m)
    ensures BoundTo(After(w, steps), k, m)
    decreases |steps|
  {
    if steps != [] {
      NextKeepsBound(w, steps[0], k, m);
      NextKeepsInv(w, steps[0]);
      BoundStays(Next(w, steps[0]), steps[1..], k, m);
    }
  }

  /**
   First response wins. Once a response is sent to a waiting call with an open and empty
   channel, no later response, duplicate or cancellation in any continuation can replace it
   or turn it into a cancellation.
   */
  lemma {:induction false} FirstResponseWins(before: seq<Step>, d: nat, after: seq<Step>)
    requires Legal(INITIAL, before) && Enabled(After(INITIAL, before), DoSend(d))
    requires var w := After(INITIAL, before);
      var k := w.sends[d].k;
      && InPhase(w, k, Waiting)
      && k in w.t.chans && w.t.chans[k].closes == 0 && w.t.chans[k].buffer.None?
      && Legal(Next(w, DoSend(d)), after)
    ensures var w := After(INITIAL, before);
      BoundTo(After(Next(w, DoSend(d)), after), w.sends[d].k, w.sends[d].m)
  {
    RunsKeepInv(INITIAL, before);
    var w := After(INITIAL, before);
    NextKeepsInv(w, DoSend(d));
    BoundStays(Next(w, DoSend(d)), after, w.sends[d].k, w.sends[d].m);
  }

  // ----- a response that comes too late -----

  /** The step closes the call's channel: the call ends, or a cancellation of its id shuts it. */
  predicate Closes(w: World, step: Step, k: CallId)
    requires Enabled(w, step)
  {
    step == DoEnd(k) || (step.DoShut? && k in w.calls && w.cancels[step.n] == w.calls[k].id)
  }

  predicate ClosedDuring(w: World, steps: seq<Step>, k: CallId)
    requires Legal(w, steps)
    decreases |steps|
  {
    steps != [] && (Closes(w, steps[0], k) || ClosedDuring(Next(w, steps[0]), steps[1..], k))
  }

  lemma {:induction false} ClosedByStep(w: World, step: Step, k: CallId)
    requires Inv(w) && Enabled(w, step) && k in w.calls && IsRendezvous(w.calls[k].phase)
    ensures k in w.t.chans && k in Next(w, step).t.chans
    ensures Next(w, step).t.chans[k].closes > 0 <==> w.t.chans[k].closes > 0 || Closes(w, step, k)
  {
    assert ClosedOnce(w, k);
    if ShutId(w, step).Some? {
      ChanAfterShut(w, step, k);
      if step.DoEnd? && step.k != k {
        assert w.calls[step.k].id != w.calls[k].id;
      }
    } else {
      ChanAfterOther(w, step, k);
    }
  }

  lemma {:induction false} ClosedByRun(w: World, steps: seq<Step>, k: CallId)
    requires Inv(w) && Legal(w, steps) && k in w.calls && IsRendezvous(w.calls[k].phase)
    ensures k in w.t.chans && k in After(w, steps).t.chans
    ensures After(w, steps).t.chans[k].closes > 0 <==> w.t.chans[k].closes > 0 || ClosedDuring(w, steps, k)
    decreases |steps|
  {
    if steps == [] {
      assert ClosedOnce(w, k);
    } else {
      ClosedByStep(w, steps[0], k);
      CallsPersist(w, steps[0]);
      NextKeepsInv(w, steps[0]);
      ClosedByRun(Next(w, steps[0]), steps[1..], k);
    }
  }

  /**
   The send is outside the lock. A response that found its channel brings the process down if
   and only if, between the lookup and the send, the call ended or a cancellation of its id
   shut the rendezvous.
   */
  lemma {:induction false} SendCrashesIff(before: seq<Step>, d: nat, m: Msg, between: seq<Step>)
    requires Legal(INITIAL, before) && Enabled(After(INITIAL, before), DoLookup(d, m))
    requires m.id != "" && m.id in After(INITIAL, before).t.rdvChans
    requires Legal(Next(After(INITIAL, before), DoLookup(d, m)), between)
    requires var w := After(INITIAL, before);
      var w' := After(Next(w, DoLookup(d, m)), between);
      Enabled(w', DoSend(d)) && w'.sends[d] == Sending(m, w.t.rdvChans[m.id])
    ensures var w := After(INITIAL, before);
      var found := Next(w, DoLookup(d, m));
      Next(After(found, between), DoSend(d)).crashed <==> ClosedDuring(found, between, w.t.rdvChans[m.id])
  {
    RunsKeepInv(INITIAL, before);
    var w := After(INITIAL, before);
    var found := Next(w, DoLookup(d, m));
    NextKeepsInv(w, DoLookup(d, m));
    ClosedByRun(found, between, w.t.rdvChans[m.id]);
  }

  lemma {:induction false} Prepend(w: World, step: Step, rest: seq<Step>)
    requires Enabled(w, step) && Legal(Next(w, step), rest)
    ensures Legal(w, [step] + rest) && After(w, [step] + rest) == After(Next(w, step), rest)
  {
    assert ([step] + rest)[1..] == rest;
  }

  /** A call that gives up while its response is in the window. */
  lemma {:induction false} LateResponseCrashes(sid: SessionId, id: ReqId, body: string)
    requires id != ""
    ensures exists steps: seq<Step> :: Legal(INITIAL, steps) && After(INITIAL, steps).crashed
  {
    var w1 := Next(INITIAL, DoOpen(0, sid, id));
    var w2 := Next(w1, DoLookup(0, Msg(id, body)));
    assert w2.sends[0] == Sending(Msg(id, body), 0);
    var w3 := Next(w2, DoGiveUp(0));
    var w4 := Next(w3, DoEnd(0));
    assert w4.t.chans[0].closes == 1;
    Prepend(w4, DoSend(0), []);
    Prepend(w3, DoEnd(0), [DoSend(0)]);
    var s3 := [DoEnd(0)] + [DoSend(0)];
    Prepend(w2, DoGiveUp(0), s3);
    Prepend(w1, DoLookup(0, Msg(id, body)), [DoGiveUp(0)] + s3);
    Prepend(INITIAL, DoOpen(0, sid, id), [DoLookup(0, Msg(id, body))] + ([DoGiveUp(0)] + s3));
  }

  /**
   Tool cancellation. After any run the cancel table lists exactly the running tool calls
   under their own ids: a refused duplicate never displaces or unregisters the original,
   and a cancellation reaches a tool call exactly when that call is running.
   */
  lemma {:induction false} ToolCancellationIsExact(steps: seq<Step>, n: nat, sid: SessionId, id: ReqId)
    requires Legal(INITIAL, steps) && Enabled(After(INITIAL, steps), DoCancel(n, sid, id))
    ensures var w := After(INITIAL, steps);
      && (id in w.t.toolCancels <==> exists k :: InPhase(w, k, Running) && w.calls[k].id == id)
      && var w' := Next(w, DoCancel(n, sid, id));
      && (forall k | k in w'.t.cancelled && k !in w.t.cancelled :: InPhase(w, k, Running) && w.calls[k].id == id)
      && (forall k | InPhase(w, k, Running) && w.calls[k].id == id :: k in w'.t.cancelled)
      && w'.t.toolCancels == w.t.toolCancels
  {
    RunsKeepInv(INITIAL, steps);
    var w := After(INITIAL, steps);
    if id in w.t.toolCancels {
      assert InPhase(w, w.t.toolCancels[id], Running);
    }
  }

  // ----- sessions sharing a request id -----

  /** A running tool call of another session under this request id. */
  ghost predicate RunsElsewhere(w: World, k: CallId, sid: SessionId, id: ReqId) {
    InPhase(w, k, Running) && w.calls[k].id == id && w.calls[k].sid != sid
  }

  /** The cancellation stops a tool call of a session that did not send it. */
  ghost predicate StopsForeignTool(w: World, n: nat, sid: SessionId, id: ReqId)
    requires Enabled(w, DoCancel(n, sid, id))
  {
    exists k :: k in Next(w, DoCancel(n, sid, id)).t.cancelled - w.t.cancelled && k in w.calls && w.calls[k].sid != sid
  }

  /** The tool call is refused although its own session runs none under that id. */
  ghost predicate RefusedUnfairly(w: World, k: CallId, sid: SessionId, id: ReqId)
    requires Enabled(w, DoTool(k, sid, id))
  {
    && id != ""
    && InPhase(Next(w, DoTool(k, sid, id)), k, Refused)
    && !exists l :: InPhase(w, l, Running) && w.calls[l].id == id && w.calls[l].sid == sid
  }

  /**
   Isolation. The table knows request ids but no sessions, so sessions are kept apart exactly
   as far as their ids are: a cancellation stops another session's tool, and a tool call is
   refused on another session's account, if and only if a tool of another session is running
   (and, for a cancellation, not yet cancelled) under the same request id.
   */
  lemma {:induction false} SessionsInterfereIff(steps: seq<Step>, n: nat, k: CallId, sid: SessionId, id: ReqId)
    requires Legal(INITIAL, steps) && id != ""
    ensures var w := After(INITIAL, steps);
      && (Enabled(w, DoCancel(n, sid, id)) ==>
            (StopsForeignTool(w, n, sid, id) <==> exists l :: RunsElsewhere(w, l, sid, id) && l !in w.t.cancelled))
      && (Enabled(w, DoTool(k, sid, id)) ==>
            (RefusedUnfairly(w, k, sid, id) <==> exists l :: RunsElsewhere(w, l, sid, id)))
  {
    RunsKeepInv(INITIAL, steps);
    var w := After(INITIAL, steps);
    CancelReaches(w, n, sid, id);
    RefusalCause(w, k, sid, id);
  }

  lemma {:induction false} CancelReaches(w: World, n: nat, sid: SessionId, id: ReqId)
    requires ToolTableExact(w)
    ensures Enabled(w, DoCancel(n, sid, id)) ==>
      (StopsForeignTool(w, n, sid, id) <==> exists l :: RunsElsewhere(w, l, sid, id) && l !in w.t.cancelled)
  {
    if Enabled(w, DoCancel(n, sid, id)) {
      var w' := Next(w, DoCancel(n, sid, id));
      if l :| RunsElsewhere(w, l, sid, id) && l !in w.t.cancelled {
        assert l in w'.t.cancelled - w.t.cancelled;
      }
      if l :| l in w'.t.cancelled - w.t.cancelled && l in w.calls && w.calls[l].sid != sid {
        assert RunsElsewhere(w, l, sid, id);
      }
    }
  }

  lemma {:induction false} RefusalCause(w: World, k: CallId, sid: SessionId, id: ReqId)
    requires ToolTableExact(w) && id != ""
    ensures Enabled(w, DoTool(k, sid, id)) ==>
      (RefusedUnfairly(w, k, sid, id) <==> exists l :: RunsElsewhere(w, l, sid, id))
  {
    if Enabled(w, DoTool(k, sid, id)) {
      if id in w.t.toolCancels {
        var l := w.t.toolCancels[id];
        assert InPhase(w, l, Running) && w.calls[l].id == id;
        assert w.calls[l].sid != sid ==> RunsElsewhere(w, l, sid, id);
      }
    }
  }

  /** Two sessions using one request id: the second's cancellation stops the first's tool. */
  lemma {:induction false} ForeignCancellationHappens(mine: SessionId, theirs: SessionId, id: ReqId)
    requires mine != theirs && id != ""
    ensures var steps := [DoTool(0, theirs, id)];
      && Legal(INITIAL, steps)
      && var w := After(INITIAL, steps);
      && Enabled(w, DoCancel(0, mine, id)) && StopsForeignTool(w, 0, mine, id)
      && Enabled(w, DoTool(1, mine, id)) && RefusedUnfairly(w, 1, mine, id)
  {
    var w := Next(INITIAL, DoTool(0, theirs, id));
    var steps := [DoTool(0, theirs, id)];
    assert steps[1..] == [];
    assert Legal(w, []) && After(INITIAL, steps) == w;
    assert RunsElsewhere(w, 0, mine, id);
    SessionsInterfereIff(steps, 0, 1, mine, id);
  }
}
