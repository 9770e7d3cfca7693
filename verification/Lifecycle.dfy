/**
 The life of a session: the initialize handshake, opening, loading and deletion
 (`internal/engine/engine.go`) over the in-memory metadata map
 (`sessions/memoryhost/memory.go`). Callbacks into the embedding server are inputs.
 */
module Lifecycle {
  import opened Wrappers

  type Time = nat
  type SessionId = string
  type UserId = string

  datatype Status = Pending | Opened

  datatype Caps = Caps(roots: bool, rootsListChanged: bool, sampling: bool, elicitation: bool)

  datatype Meta = Meta(
    sessionID: SessionId,
    userID: UserId,
    clientVersion: string,
    serverVersion: string,
    clientName: string,
    clientBuild: string,
    caps: Caps,
    state: Status,
    createdAt: Time,
    updatedAt: Time,
    lastAccess: Time,
    openedAt: Option<Time>,
    ttl: nat,
    maxLifetime: nat,
    revoked: bool)

  type Metas = map<SessionId, Meta>

  /** The engine's session settings. */
  datatype Config = Config(handshakeTTL: nat, sessionTTL: nat, maxLifetime: nat)

  const LATEST_VERSION: string := "2025-06-18"

  predicate Supported(v: string) {
    v == LATEST_VERSION
  }

  // ----- the initialize handshake -----

  /** What a server callback returned: an error, "not supported", or a value. */
  datatype Answer<+T> = Raised | Absent | Present(value: T)

  datatype ClientCaps = ClientCaps(sampling: bool, roots: Option<bool>, elicitation: bool)

  datatype InitRequest = InitRequest(version: string, name: string, build: string, caps: ClientCaps)

  datatype ResourcesCap = ResourcesCap(sub: Answer<()>, eventSource: bool, listChanged: Answer<()>)
  datatype ListCap = ListCap(listChanged: Answer<()>)

  datatype Server = Server(
    preferred: Answer<string>,
    info: Answer<string>,
    instructions: Answer<string>,
    resources: Answer<ResourcesCap>,
    tools: Answer<ListCap>,
    prompts: Answer<ListCap>,
    logging: Answer<()>,
    completions: Answer<()>)

  datatype ResourcesEntry = ResourcesEntry(listChanged: bool, subscribe: bool)

  datatype InitResult = InitResult(
    version: string,
    info: string,
    instructions: Option<string>,
    resources: Option<ResourcesEntry>,
    tools: Option<bool>,
    prompts: Option<bool>,
    logging: bool,
    completions: bool)

  datatype InitError = NoRequest | BadVersion | ServerFailed | BadUser | CreateFailed

  /** The protocol version to answer with. */
  function Negotiate(client: string, preferred: Answer<string>): (r: Result<string, InitError>)
    ensures r.Ok? ==> r.value == "2025-06-18"
    ensures client == "2025-06-18" ==> r == Ok(client)
    ensures r == Err(ServerFailed) <==> client != "2025-06-18" && preferred.Raised?
    ensures r == Err(BadVersion) <==> client != "2025-06-18" && preferred.Present? && preferred.value !in {"", "2025-06-18"}
    ensures r.Ok? || r == Err(ServerFailed) || r == Err(BadVersion)
  {
    if Supported(client) then Ok(client)
    else match preferred
      case Raised => Err(ServerFailed)
      case Absent => Ok(LATEST_VERSION)
      case Present(v) => if v == "" then Ok(LATEST_VERSION) else if Supported(v) then Ok(v) else Err(BadVersion)
  }

  function CapSet(c: ClientCaps): Caps {
    Caps(c.roots.Some?, c.roots.Some? && c.roots.value, c.sampling, c.elicitation)
  }

  function NewMeta(cfg: Config, sid: SessionId, user: UserId, req: InitRequest, version: string, now: Time): Meta {
    Meta(sid, user, req.version, version, req.name, req.build, CapSet(req.caps), Pending,
         now, now, now, None, cfg.handshakeTTL, cfg.maxLifetime, false)
  }

  predicate ListAnswered(a: Answer<ListCap>) {
    !a.Raised? && (a.Present? ==> !a.value.listChanged.Raised?)
  }

  /** No callback after the record is created reports an error. */
  predicate AllAnswered(s: Server) {
    && !s.info.Raised?
    && !s.instructions.Raised?
    && !s.resources.Raised?
    && (s.resources.Present? ==> !s.resources.value.sub.Raised? && !s.resources.value.listChanged.Raised?)
    && ListAnswered(s.tools)
    && ListAnswered(s.prompts)
    && !s.logging.Raised?
    && !s.completions.Raised?
  }

  function ListEntry(a: Answer<ListCap>): Option<bool> {
    if a.Present? then Some(a.value.listChanged.Present?) else None
  }

  /** The payload the client receives, when every callback answered. */
  function Describe(s: Server, version: string): InitResult {
    InitResult(
      version,
      if s.info.Present? then s.info.value else "",
      if s.instructions.Present? then Some(s.instructions.value) else None,
      if s.resources.Present?
      then Some(ResourcesEntry(s.resources.value.listChanged.Present?, s.resources.value.sub.Present? || s.resources.value.eventSource))
      else None,
      ListEntry(s.tools),
      ListEntry(s.prompts),
      s.logging.Present?,
      s.completions.Present?)
  }

  /** Everything the handshake reads: who asks, under which fresh id, and when. */
  datatype InitCall = InitCall(
    user: UserId,
    req: Option<InitRequest>,
    sid: SessionId,
    now: Time,
    server: Server,
    liveAtCreate: bool,    // context not yet ended when the record is created
    liveAtCleanup: bool)   // context not yet ended when a failed handshake cleans up

  /** The handshake up to and including the creation of the record. */
  function CreateOutcome(cfg: Config, metas: Metas, c: InitCall): Result<Meta, InitError> {
    if c.req.None? then Err(NoRequest)
    else if c.req.value.version == "" then Err(BadVersion)
    else match Negotiate(c.req.value.version, c.server.preferred)
      case Err(e) => Err(e)
      case Ok(v) =>
        if c.user == "" then Err(BadUser)
        else if !c.liveAtCreate || c.sid in metas then Err(CreateFailed)
        else Ok(NewMeta(cfg, c.sid, c.user, c.req.value, v, c.now))
  }

  /** After the callbacks: the result, or the deferred clean-up of the record. */
  function Finish(metas: Metas, c: InitCall, m: Meta): (Metas, Result<InitResult, InitError>) {
    if AllAnswered(c.server) then (metas, Ok(Describe(c.server, m.serverVersion)))
    else (if c.liveAtCleanup then metas - {c.sid} else metas, Err(ServerFailed))
  }

  /** The handshake when nobody interferes. */
  function Initialize(cfg: Config, metas: Metas, c: InitCall): (Metas, Result<InitResult, InitError>) {
    match CreateOutcome(cfg, metas, c)
    case Err(e) => (metas, Err(e))
    case Ok(m) => Finish(metas[c.sid := m], c, m)
  }

  // ----- opening, loading, deleting -----

  /** The mutation a `notifications/initialized` read at `at` applies; repeated ones find it open. */
  function OpenFor(cfg: Config, m: Meta, user: UserId, at: Time): Meta {
    if m.revoked || m.userID != user || m.state.Opened? then m
    else m.(state := Opened, openedAt := if m.openedAt.None? then Some(at) else m.openedAt,
         ttl := cfg.sessionTTL, updatedAt := at, lastAccess := at)
  }

  /** MutateSession stamps the update time, under its lock, after the mutation function ran. */
  function Initialized(cfg: Config, metas: Metas, sid: SessionId, user: UserId, at: Time, now: Time): Metas {
    if sid in metas then metas[sid := OpenFor(cfg, metas[sid], user, at).(updatedAt := now)] else metas
  }

  predicate MayLoad(metas: Metas, sid: SessionId, user: UserId) {
    sid in metas && !metas[sid].revoked && metas[sid].userID != "" && metas[sid].userID == user
  }

  function Touched(metas: Metas, sid: SessionId, now: Time): Metas {
    if sid in metas then metas[sid := metas[sid].(lastAccess := now, updatedAt := now)] else metas
  }

  // ----- the engine and its host, updated in place -----

  class Engine {
    const cfg: Config
    var metas: Metas

    constructor (cfg: Config)
      ensures this.cfg == cfg && metas == map[]
    {
      this.cfg := cfg;
      metas := map[];
    }

    /** Host: create a record unless the context ended or the id is taken; a blank id is replaced. */
    method CreateSession(live: bool, m: Meta, generated: SessionId) returns (ok: bool)
      modifies this
      ensures var id := if m.sessionID == "" then generated else m.sessionID;
        && ok == (live && id !in old(metas))
        && metas == if ok then old(metas)[id := m.(sessionID := id)] else old(metas)
    {
      if !live {
        return false;
      }
      var sessID := m.sessionID;
      if sessID == "" {
        sessID := generated;
      }
      if sessID in metas {
        return false;
      }
      metas := metas[sessID := m.(sessionID := sessID)];
      ok := true;
    }

    /** Host: deletion itself refuses a context that has ended. */
    method DeleteRecord(live: bool, sid: SessionId)
      modifies this
      ensures metas == if live then old(metas) - {sid} else old(metas)
    {
      if live {
        metas := metas - {sid};
      }
    }

    /** The callbacks asked after the record exists, in order; the first error stops them. */
    method DescribeServer(s: Server, version: string) returns (r: Option<InitResult>)
      ensures r == if AllAnswered(s) then Some(Describe(s, version)) else None
    {
      if s.info.Raised? {
        return None;
      }
      var res := InitResult(version, if s.info.Present? then s.info.value else "", None, None, None, None, false, false);
      if s.instructions.Raised? {
        return None;
      }
      if s.instructions.Present? {
        res := res.(instructions := Some(s.instructions.value));
      }
      if s.resources.Raised? {
        return None;
      }
      if s.resources.Present? {
        var entry := ResourcesEntry(false, false);
        if s.resources.value.sub.Raised? {
          return None;
        }
        if s.resources.value.sub.Present? {
          entry := entry.(subscribe := true);
        } else if s.resources.value.eventSource {
          entry := entry.(subscribe := true);
        }
        if s.resources.value.listChanged.Raised? {
          return None;
        }
        if s.resources.value.listChanged.Present? {
          entry := entry.(listChanged := true);
        }
        res := res.(resources := Some(entry));
      }
      if !ListAnswered(s.tools) {
        return None;
      }
      res := res.(tools := ListEntry(s.tools));
      if !ListAnswered(s.prompts) {
        return None;
      }
      res := res.(prompts := ListEntry(s.prompts));
      if s.logging.Raised? || s.completions.Raised? {
        return None;
      }
      r := Some(res.(logging := s.logging.Present?, completions := s.completions.Present?));
    }

    /** The handshake with its deferred clean-up. */
    method InitializeSession(c: InitCall) returns (r: Result<InitResult, InitError>)
      modifies this
      ensures (metas, r) == Initialize(cfg, old(metas), c)
      ensures r.Ok? ==> c.req.Some? && c.sid !in old(metas) && c.sid in metas && metas == old(metas)[c.sid := metas[c.sid]]
      ensures r.Ok? ==>
        && var m := metas[c.sid];
        && m.sessionID == c.sid && m.userID == c.user != ""
        && m.clientVersion == c.req.value.version && m.clientName == c.req.value.name && m.clientBuild == c.req.value.build
        && (m.caps.sampling <==> c.req.value.caps.sampling) && (m.caps.elicitation <==> c.req.value.caps.elicitation)
        && (m.caps.roots <==> c.req.value.caps.roots.Some?)
        && (m.caps.rootsListChanged <==> c.req.value.caps.roots == Some(true))
        && m.state.Pending? && m.openedAt.None? && !m.revoked
        && m.createdAt == m.updatedAt == m.lastAccess == c.now
        && m.ttl == cfg.handshakeTTL && m.maxLifetime == cfg.maxLifetime
      ensures r.Ok? ==>
        && var m, s := metas[c.sid], c.server;
        && r.value.version == m.serverVersion
        && r.value.info == (if s.info.Present? then s.info.value else "")
        && r.value.instructions == (if s.instructions.Present? then Some(s.instructions.value) else None)
        && (r.value.resources.Some? <==> s.resources.Present?)
        && (r.value.resources.Some? ==>
              && (r.value.resources.value.listChanged <==> s.resources.value.listChanged.Present?)
              && (r.value.resources.value.subscribe <==> s.resources.value.sub.Present? || s.resources.value.eventSource))
        && (r.value.tools.Some? <==> s.tools.Present?)
        && (r.value.tools.Some? ==> (r.value.tools.value <==> s.tools.value.listChanged.Present?))
        && (r.value.prompts.Some? <==> s.prompts.Present?)
        && (r.value.prompts.Some? ==> (r.value.prompts.value <==> s.prompts.value.listChanged.Present?))
        && (r.value.logging <==> s.logging.Present?) && (r.value.completions <==> s.completions.Present?)
    {
      if c.req.None? {
        return Err(NoRequest);
      }
      var req := c.req.value;
      if req.version == "" {
        return Err(BadVersion);
      }
      var negotiated := Negotiate(req.version, c.server.preferred);
      if negotiated.Err? {
        return Err(negotiated.error);
      }
      if c.user == "" {
        return Err(BadUser);
      }
      var m := NewMeta(cfg, c.sid, c.user, req, negotiated.value, c.now);
      var created := CreateSession(c.liveAtCreate, m, c.sid);
      if !created {
        return Err(CreateFailed);
      }
      var described := DescribeServer(c.server, negotiated.value);
      if described.None? {
        DeleteRecord(c.liveAtCleanup, c.sid);
        return Err(ServerFailed);
      }
      r := Ok(described.value);
    }

    /** `at` is read before the host's lock is taken, `now` under it. */
    method HandleInitialized(live: bool, sid: SessionId, user: UserId, at: Time, now: Time)
      modifies this
      ensures metas == if live then Initialized(cfg, old(metas), sid, user, at, now) else old(metas)
      ensures live && sid in old(metas) ==>
        && var m := old(metas)[sid];
        && sid in metas && metas[sid].updatedAt == now
        && (m.revoked || m.userID != user || m.state.Opened? ==> metas[sid] == m.(updatedAt := now))
        && (!m.revoked && m.userID == user && m.state.Pending? ==>
              metas[sid].state.Opened? && metas[sid].lastAccess == at && metas[sid].ttl == cfg.sessionTTL)
    {
      if live && sid in metas {
        var m := metas[sid];
        if !m.revoked && m.userID == user && m.state == Pending {
          m := m.(state := Opened);
          if m.openedAt.None? {
            m := m.(openedAt := Some(at));
          }
          m := m.(ttl := cfg.sessionTTL, updatedAt := at, lastAccess := at);
        }
        metas := metas[sid := m.(updatedAt := now)];
      }
    }

    method LoadSession(live: bool, liveAtTouch: bool, sid: SessionId, user: UserId, now: Time) returns (handle: Option<Meta>)
      modifies this
      ensures handle.Some? <==>
        live && sid in old(metas) && !old(metas)[sid].revoked && old(metas)[sid].userID == user != ""
      ensures handle.Some? ==> handle.value == old(metas)[sid]
      ensures metas == if handle.Some? && liveAtTouch then Touched(old(metas), sid, now) else old(metas)
    {
      if !live || sid !in metas {
        return None;
      }
      var m := metas[sid];
      if m.revoked || m.userID == "" || m.userID != user {
        return None;
      }
      if liveAtTouch {
        metas := Touched(metas, sid, now);
      }
      handle := Some(m);
    }
  }

  // ----- runs -----

  datatype Handle = Handle(sid: SessionId, user: UserId)

  /** A handshake after its first step: waiting for the callbacks, or over. */
  datatype Handshake = Serving(m: Meta) | Done(r: Result<InitResult, InitError>)

  datatype Attempt = Attempt(call: InitCall, stage: Handshake)

  /** A `notifications/initialized` whose clock was read and whose mutation is still to come. */
  datatype Opening = Opening(h: Handle, at: Time)

  datatype World = World(
    now: Time,
    metas: Metas,
    born: map<SessionId, Meta>,           // each record as it was first stored
    attempts: map<SessionId, Attempt>,    // handshakes, by the id generated for them
    openings: map<nat, Opening>,
    loads: map<nat, Handle>,              // loads past their ownership check, before their touch
    deleted: set<SessionId>,              // ids a client's deletion has removed
    handles: set<Handle>)                 // session handles the engine has given out, and to whom

  datatype Step =
    | Tick(d: nat)
    | DoCreate(call: InitCall)                                  // handshake up to the stored record
    | DoFinish(sid: SessionId)                                  // callbacks answered, or clean-up
    | DoStamp(o: nat, h: Handle)                                // initialized: clock reading
    | DoOpen(o: nat, live: bool)                                // initialized: mutation under the lock
    | DoCheck(l: nat, sid: SessionId, user: UserId, live: bool) // load: ownership check
    | DoTouch(l: nat, live: bool)                               // load: touch, then the handle
    | DoDelete(h: Handle, live: bool)

  const INITIAL := World(0, map[], map[], map[], map[], map[], {}, {})

  /** Session ids are freshly generated; opening and deleting need a handle. */
  predicate Enabled(w: World, step: Step) {
    match step
    case DoCreate(c) => c.sid !in w.attempts && c.now <= w.now
    case DoFinish(sid) => sid in w.attempts && w.attempts[sid].stage.Serving?
    case DoStamp(o, h) => h in w.handles && o !in w.openings
    case DoOpen(o, _) => o in w.openings
    case DoCheck(l, _, _, _) => l !in w.loads
    case DoTouch(l, _) => l in w.loads
    case DoDelete(h, _) => h in w.handles
    case _ => true
  }

  function Created(cfg: Config, w: World, c: InitCall): World {
    match CreateOutcome(cfg, w.metas, c)
    case Err(e) => w.(attempts := w.attempts[c.sid := Attempt(c, Done(Err(e)))])
    case Ok(m) =>
      w.(metas := w.metas[c.sid := m], born := w.born[c.sid := m], attempts := w.attempts[c.sid := Attempt(c, Serving(m))])
  }

  function Finished(w: World, sid: SessionId): World
    requires sid in w.attempts && w.attempts[sid].stage.Serving?
  {
    var a := w.attempts[sid];
    var (metas, r) := Finish(w.metas, a.call, a.stage.m);
    w.(metas := metas,
    attempts := w.attempts[sid := a.(stage := Done(r))],
    handles := if r.Ok? then w.handles + {Handle(sid, a.call.user)} else w.handles)
  }

  function Next(cfg: Config, w: World, step: Step): World
    requires Enabled(w, step)
  {
    match step
    case Tick(d) => w.(now := w.now + d)
    case DoCreate(c) => Created(cfg, w, c)
    case DoFinish(sid) => Finished(w, sid)
    case DoStamp(o, h) => w.(openings := w.openings[o := Opening(h, w.now)])
    case DoOpen(o, live) =>
      var op := w.openings[o];
      w.(metas := if live then Initialized(cfg, w.metas, op.h.sid, op.h.user, op.at, w.now) else w.metas,
      openings := w.openings - {o})
    case DoCheck(l, sid, user, live) =>
      if live && MayLoad(w.metas, sid, user) then w.(loads := w.loads[l := Handle(sid, user)]) else w
    case DoTouch(l, live) =>
      w.(metas := if live then Touched(w.metas, w.loads[l].sid, w.now) else w.metas,
      handles := w.handles + {w.loads[l]},
      loads := w.loads - {l})
    case DoDelete(h, live) =>
      if live then w.(metas := w.metas - {h.sid}, deleted := w.deleted + {h.sid}) else w
  }

  predicate Legal(cfg: Config, w: World, steps: seq<Step>)
    decreases |steps|
  {
    steps == [] || (Enabled(w, steps[0]) && Legal(cfg, Next(cfg, w, steps[0]), steps[1..]))
  }

  function After(cfg: Config, w: World, steps: seq<Step>): World
    requires Legal(cfg, w, steps)
    decreases |steps|
  {
    if steps == [] then w else After(cfg, Next(cfg, w, steps[0]), steps[1..])
  }

  /** What may happen to a record between two instants of its life. */
  ghost predicate Evolves(a: Meta, b: Meta) {
    // identity, negotiated versions and capabilities, and the lifetime are fixed
    && b.sessionID == a.sessionID && b.userID == a.userID
    && b.clientVersion == a.clientVersion && b.serverVersion == a.serverVersion
    && b.clientName == a.clientName && b.clientBuild == a.clientBuild && b.caps == a.caps
    && b.createdAt == a.createdAt && b.maxLifetime == a.maxLifetime && b.revoked == a.revoked
    // opening happens once, is never undone, and its instant is never moved
    && (a.state.Opened? ==> b.state.Opened? && b.openedAt == a.openedAt && b.ttl == a.ttl)
    && (b.state.Pending? ==> b.openedAt == a.openedAt && b.ttl == a.ttl)
    // stamps move forward, save that opening may set the last access back to its own reading
    && a.updatedAt <= b.updatedAt
    && (a.state == b.state ==> a.lastAccess <= b.lastAccess)
  }

  ghost predicate WellFormed(m: Meta, now: Time) {
    && (m.state.Opened? <==> m.openedAt.Some?)
    && m.updatedAt <= now && m.lastAccess <= now && m.createdAt <= now
    && (m.openedAt.Some? ==> m.createdAt <= m.openedAt.value <= m.lastAccess)
  }

  ghost predicate Healthy(w: World, sid: SessionId)
    requires sid in w.metas
  {
    && sid in w.born
    && Evolves(w.born[sid], w.metas[sid])
    && WellFormed(w.metas[sid], w.now)
    && w.metas[sid].sessionID == sid
  }

  ghost predicate BornPending(m: Meta, now: Time) {
    m.userID != "" && m.state.Pending? && m.openedAt.None? && !m.revoked && m.createdAt <= now
  }

  ghost predicate Owned(w: World, h: Handle) {
    h.sid in w.born && w.born[h.sid].userID == h.user
  }

  /** Which records exist, told from how their handshakes went and what clients deleted. */
  ghost predicate Accounted(cfg: Config, w: World, sid: SessionId) {
    if sid !in w.attempts then sid !in w.born && sid !in w.metas && sid !in w.deleted
    else
      var a := w.attempts[sid];
      && a.call.sid == sid
      && (sid in w.born ==>
            && a.call.req.Some? && Supported(w.born[sid].serverVersion)
            && w.born[sid] == NewMeta(cfg, sid, a.call.user, a.call.req.value, w.born[sid].serverVersion, a.call.now))
      && match a.stage
         case Serving(m) => sid in w.born && w.born[sid] == m && (sid in w.metas <==> sid !in w.deleted)
         case Done(Ok(res)) =>
           sid in w.born && res == Describe(a.call.server, w.born[sid].serverVersion) && (sid in w.metas <==> sid !in w.deleted)
         case Done(Err(_)) => sid in w.metas <==> sid in w.born && !a.call.liveAtCleanup && sid !in w.deleted
  }

  ghost predicate Inv(cfg: Config, w: World) {
    && (forall sid | sid in w.metas :: Healthy(w, sid))
    && (forall sid | sid in w.born :: BornPending(w.born[sid], w.now))
    && (forall h | h in w.handles :: Owned(w, h))
    && (forall l | l in w.loads :: Owned(w, w.loads[l]))
    && (forall o | o in w.openings ::
          Owned(w, w.openings[o].h) && w.born[w.openings[o].h.sid].createdAt <= w.openings[o].at <= w.now)
    && (forall sid :: Accounted(cfg, w, sid))
  }

  // ----- what a step does to one record -----

  lemma {:induction false} RecordAfter(cfg: Config, w: World, step: Step, sid: SessionId)
    requires Enabled(w, step) && sid in Next(cfg, w, step).metas
    ensures var w' := Next(cfg, w, step);
      if sid !in w.metas then
        step.DoCreate? && step.call.sid == sid && CreateOutcome(cfg, w.metas, step.call) == Ok(w'.metas[sid])
      else if step.DoOpen? && w.openings[step.o].h.sid == sid && step.live then
        w'.metas[sid] == OpenFor(cfg, w.metas[sid], w.openings[step.o].h.user, w.openings[step.o].at).(updatedAt := w.now)
      else if step.DoTouch? && w.loads[step.l].sid == sid && step.live then
        w'.metas[sid] == w.metas[sid].(lastAccess := w.now, updatedAt := w.now)
      else w'.metas[sid] == w.metas[sid]
  {
  }

  lemma {:induction false} TouchEvolves(m: Meta, now: Time)
    requires WellFormed(m, now)
    ensures var m' := m.(lastAccess := now, updatedAt := now); Evolves(m, m') && WellFormed(m', now)
  {
  }

  lemma {:induction false} OpenEvolves(cfg: Config, m: Meta, user: UserId, at: Time, now: Time)
    requires WellFormed(m, now) && m.createdAt <= at <= now
    ensures var m' := OpenFor(cfg, m, user, at).(updatedAt := now); Evolves(m, m') && WellFormed(m', now)
  {
  }

  lemma {:induction false} EvolvesTransitive(a: Meta, b: Meta, c: Meta)
    requires Evolves(a, b) && Evolves(b, c)
    ensures Evolves(a, c)
  {
  }

  /** What the invariant says of the opening or handle a step is about. */
  ghost predicate Sound(w: World, step: Step)
    requires Enabled(w, step)
  {
    match step
    case DoOpen(o, _) =>
      var op := w.openings[o];
      Owned(w, op.h) && w.born[op.h.sid].createdAt <= op.at <= w.now
    case DoDelete(h, _) => h.sid in w.attempts
    case DoFinish(sid) => w.attempts[sid].call.sid == sid
    case _ => true
  }

  lemma {:induction false} RecordEvolves(cfg: Config, w: World, step: Step, sid: SessionId)
    requires Enabled(w, step) && Sound(w, step) && sid in w.metas && sid in Next(cfg, w, step).metas && Healthy(w, sid)
    ensures var m' := Next(cfg, w, step).metas[sid]; Evolves(w.metas[sid], m') && WellFormed(m', w.now)
  {
    RecordAfter(cfg, w, step, sid);
    TouchEvolves(w.metas[sid], w.now);
    if step.DoOpen? && w.openings[step.o].h.sid == sid {
      OpenEvolves(cfg, w.metas[sid], w.openings[step.o].h.user, w.openings[step.o].at, w.now);
    }
  }

  lemma {:induction false} ClockAndBirths(cfg: Config, w: World, step: Step)
    requires Enabled(w, step)
    ensures var w' := Next(cfg, w, step);
      && w.now <= w'.now
      && (step.DoCreate? && CreateOutcome(cfg, w.metas, step.call).Ok? ==>
            w'.born == w.born[step.call.sid := CreateOutcome(cfg, w.metas, step.call).value])
      && (!(step.DoCreate? && CreateOutcome(cfg, w.metas, step.call).Ok?) ==> w'.born == w.born)
  {
  }

  lemma {:induction false} BornAsOrdered(cfg: Config, metas: Metas, c: InitCall)
    requires CreateOutcome(cfg, metas, c).Ok?
    ensures var m := CreateOutcome(cfg, metas, c).value;
      && c.req.Some? && Supported(m.serverVersion) && c.sid !in metas
      && m == NewMeta(cfg, c.sid, c.user, c.req.value, m.serverVersion, c.now)
      && BornPending(m, c.now) && WellFormed(m, c.now) && Evolves(m, m)
  {
  }

  lemma {:induction false} NextKeepsHealthy(cfg: Config, w: World, step: Step, sid: SessionId)
    requires Enabled(w, step) && Sound(w, step) && sid in Next(cfg, w, step).metas
    requires (sid in w.metas ==> Healthy(w, sid)) && (step.DoCreate? ==> step.call.sid !in w.born)
    ensures Healthy(Next(cfg, w, step), sid)
  {
    RecordAfter(cfg, w, step, sid);
    ClockAndBirths(cfg, w, step);
    if sid in w.metas {
      RecordEvolves(cfg, w, step, sid);
      EvolvesTransitive(w.born[sid], w.metas[sid], Next(cfg, w, step).metas[sid]);
    } else {
      BornAsOrdered(cfg, w.metas, step.call);
    }
  }

  lemma {:induction false} InvGivesSound(cfg: Config, w: World, step: Step)
    requires Inv(cfg, w) && Enabled(w, step)
    ensures Sound(w, step) && (step.DoCreate? ==> step.call.sid !in w.born)
  {
    match step
    case DoOpen(_, _) =>
    case DoDelete(h, _) => assert Owned(w, h) && Accounted(cfg, w, h.sid);
    case DoFinish(sid) => assert Accounted(cfg, w, sid);
    case DoCreate(c) => assert Accounted(cfg, w, c.sid);
    case _ =>
  }

  lemma {:induction false} BirthsStay(cfg: Config, w: World, step: Step)
    requires Inv(cfg, w) && Enabled(w, step)
    ensures var w' := Next(cfg, w, step);
      && w.now <= w'.now
      && (forall sid | sid in w.born :: sid in w'.born && w'.born[sid] == w.born[sid])
      && (forall sid | sid in w'.born :: BornPending(w'.born[sid], w'.now))
  {
    InvGivesSound(cfg, w, step);
    ClockAndBirths(cfg, w, step);
    if step.DoCreate? && CreateOutcome(cfg, w.metas, step.call).Ok? {
      BornAsOrdered(cfg, w.metas, step.call);
    }
  }

  /** Every handle in play was in play before, or is checked or created by this step. */
  lemma {:induction false} HandlesAfter(cfg: Config, w: World, step: Step)
    requires Enabled(w, step)
    ensures var w' := Next(cfg, w, step);
      && (forall h | h in w'.handles && h !in w.handles ::
            || (step.DoFinish? && h == Handle(step.sid, w.attempts[step.sid].call.user))
            || (step.DoTouch? && h == w.loads[step.l]))
      && (forall l | l in w'.loads && !(l in w.loads && w'.loads[l] == w.loads[l]) ::
            step.DoCheck? && w'.loads[l] == Handle(step.sid, step.user) && MayLoad(w.metas, step.sid, step.user))
      && (forall o | o in w'.openings && !(o in w.openings && w'.openings[o] == w.openings[o]) ::
            step.DoStamp? && w'.openings[o] == Opening(step.h, w.now))
  {
  }

  lemma {:induction false} NextKeepsOwners(cfg: Config, w: World, step: Step)
    requires Inv(cfg, w) && Enabled(w, step)
    ensures var w' := Next(cfg, w, step);
      && (forall h | h in w'.handles :: Owned(w', h))
      && (forall l | l in w'.loads :: Owned(w', w'.loads[l]))
      && (forall o | o in w'.openings ::
            Owned(w', w'.openings[o].h) && w'.born[w'.openings[o].h.sid].createdAt <= w'.openings[o].at <= w'.now)
  {
    BirthsStay(cfg, w, step);
    HandlesAfter(cfg, w, step);
    if step.DoCheck? {
      assert step.sid in w.metas ==> Healthy(w, step.sid);
    } else if step.DoFinish? {
      assert Accounted(cfg, w, step.sid);
    }
    var w' := Next(cfg, w, step);
    assert forall h | Owned(w, h) :: Owned(w', h);
  }

  lemma {:induction false} CreateKeepsAccounts(cfg: Config, w: World, c: InitCall, sid: SessionId)
    requires c.sid !in w.attempts && Accounted(cfg, w, sid) && Accounted(cfg, w, c.sid)
    ensures Accounted(cfg, Created(cfg, w, c), sid)
  {
    if CreateOutcome(cfg, w.metas, c).Ok? {
      BornAsOrdered(cfg, w.metas, c);
    }
  }

  lemma {:induction false} FinishKeepsAccounts(cfg: Config, w: World, done: SessionId, sid: SessionId)
    requires done in w.attempts && w.attempts[done].stage.Serving? && Accounted(cfg, w, done) && Accounted(cfg, w, sid)
    ensures Accounted(cfg, Finished(w, done), sid)
  {
  }

  /** The other steps change which records exist only by deleting one. */
  lemma {:induction false} OthersKeepAccounts(cfg: Config, w: World, step: Step, sid: SessionId)
    requires Enabled(w, step) && Sound(w, step) && !step.DoCreate? && !step.DoFinish? && Accounted(cfg, w, sid)
    ensures Accounted(cfg, Next(cfg, w, step), sid)
  {
    var w' := Next(cfg, w, step);
    assert w'.attempts == w.attempts && w'.born == w.born;
    if step.DoDelete? && step.live && step.h.sid == sid {
      assert sid !in w'.metas && sid in w'.deleted;
    } else {
      assert (sid in w'.metas <==> sid in w.metas) && (sid in w'.deleted <==> sid in w.deleted);
    }
  }

  lemma {:induction false} NextKeepsAccounts(cfg: Config, w: World, step: Step, sid: SessionId)
    requires Inv(cfg, w) && Enabled(w, step)
    ensures Accounted(cfg, Next(cfg, w, step), sid)
  {
    InvGivesSound(cfg, w, step);
    assert Accounted(cfg, w, sid);
    match step
    case DoCreate(c) =>
      assert Accounted(cfg, w, c.sid);
      CreateKeepsAccounts(cfg, w, c, sid);
    case DoFinish(done) =>
      assert Accounted(cfg, w, done);
      FinishKeepsAccounts(cfg, w, done, sid);
    case _ => OthersKeepAccounts(cfg, w, step, sid);
  }

  lemma {:induction false} NextKeepsInv(cfg: Config, w: World, step: Step)
    requires Inv(cfg, w) && Enabled(w, step)
    ensures Inv(cfg, Next(cfg, w, step))
  {
    InvGivesSound(cfg, w, step);
    BirthsStay(cfg, w, step);
    NextKeepsOwners(cfg, w, step);
    forall sid | sid in Next(cfg, w, step).metas ensures Healthy(Next(cfg, w, step), sid) {
      NextKeepsHealthy(cfg, w, step, sid);
    }
    forall sid ensures Accounted(cfg, Next(cfg, w, step), sid) {
      NextKeepsAccounts(cfg, w, step, sid);
    }
  }

  lemma {:induction false} RunsKeepInv(cfg: Config, w: World, steps: seq<Step>)
    requires Inv(cfg, w) && Legal(cfg, w, steps)
    ensures Inv(cfg, After(cfg, w, steps))
    decreases |steps|
  {
    if steps != [] {
      NextKeepsInv(cfg, w, steps[0]);
      RunsKeepInv(cfg, Next(cfg, w, steps[0]), steps[1..]);
    }
  }

  lemma {:induction false} NextEvolves(cfg: Config, w: World, step: Step, sid: SessionId)
    requires Inv(cfg, w) && Enabled(w, step) && sid in w.born
    ensures var w' := Next(cfg, w, step);
      && sid in w'.born && w'.born[sid] == w.born[sid]
      && (sid in w'.metas ==> sid in w.metas && Evolves(w.metas[sid], w'.metas[sid]))
  {
    InvGivesSound(cfg, w, step);
    ClockAndBirths(cfg, w, step);
    var w' := Next(cfg, w, step);
    if sid in w'.metas {
      RecordAfter(cfg, w, step, sid);
      if sid in w.metas {
        RecordEvolves(cfg, w, step, sid);
      }
    }
  }

  // ----- theorems over whole runs -----

  /**
   A record only ever evolves. Between any two points of any run, a session that exists at
   the later point kept its identity, versions, capabilities and creation instant, never
   went back from open to pending, and never had its opening instant or TTL changed once
   open.
   */
  lemma {:induction false} RecordsOnlyEvolve(cfg: Config, w: World, steps: seq<Step>, sid: SessionId)
    requires Inv(cfg, w) && Legal(cfg, w, steps) && sid in w.born && sid in After(cfg, w, steps).metas
    ensures sid in w.metas && Evolves(w.metas[sid], After(cfg, w, steps).metas[sid])
    decreases |steps|
  {
    if steps != [] {
      NextEvolves(cfg, w, steps[0], sid);
      NextKeepsInv(cfg, w, steps[0]);
      RecordsOnlyEvolve(cfg, Next(cfg, w, steps[0]), steps[1..], sid);
    }
  }

  lemma {:induction false} AbsentStaysAbsent(cfg: Config, w: World, steps: seq<Step>, sid: SessionId)
    requires Inv(cfg, w) && Legal(cfg, w, steps) && sid in w.born && sid !in w.metas
    ensures sid !in After(cfg, w, steps).metas
  {
    if sid in After(cfg, w, steps).metas {
      RecordsOnlyEvolve(cfg, w, steps, sid);
    }
  }

  /**
   Deletion by a handle's holder removes the record under a live context, for good because ids
   are never issued twice, and touches no other.
   */
  lemma {:induction false} DeletionIsFinal(cfg: Config, before: seq<Step>, h: Handle, after: seq<Step>)
    requires Legal(cfg, INITIAL, before) && Enabled(After(cfg, INITIAL, before), DoDelete(h, true))
    requires Legal(cfg, Next(cfg, After(cfg, INITIAL, before), DoDelete(h, true)), after)
    ensures var w := After(cfg, INITIAL, before);
      var w' := Next(cfg, w, DoDelete(h, true));
      && h.sid !in After(cfg, w', after).metas
      && (forall sid | sid != h.sid :: sid in w.metas <==> sid in w'.metas)
      && (forall sid | sid in w'.metas :: w'.metas[sid] == w.metas[sid])
  {
    RunsKeepInv(cfg, INITIAL, before);
    var w := After(cfg, INITIAL, before);
    NextKeepsInv(cfg, w, DoDelete(h, true));
    assert Owned(w, h);
    AbsentStaysAbsent(cfg, Next(cfg, w, DoDelete(h, true)), after, h.sid);
  }

  /** A load that passed its check touches the record, if it is still there, and changes nothing else in it. */
  lemma {:induction false} LoadTouches(cfg: Config, w: World, l: nat)
    requires l in w.loads
    ensures var sid, w' := w.loads[l].sid, Next(cfg, w, DoTouch(l, true));
      && w.loads[l] in w'.handles
      && w'.metas.Keys == w.metas.Keys
      && (forall x | x in w.metas && x != sid :: w'.metas[x] == w.metas[x])
      && (sid in w.metas ==>
            && w'.metas[sid].lastAccess == w'.metas[sid].updatedAt == w.now
            && w'.metas[sid].(lastAccess := 0, updatedAt := 0) == w.metas[sid].(lastAccess := 0, updatedAt := 0))
  {
  }

  /** Every handle ever given out is held by the user who created the session. */
  lemma {:induction false} HandlesGoToTheCreator(cfg: Config, steps: seq<Step>, h: Handle)
    requires Legal(cfg, INITIAL, steps) && h in After(cfg, INITIAL, steps).handles
    ensures var w := After(cfg, INITIAL, steps);
      && h.user != "" && h.sid in w.born && w.born[h.sid].userID == h.user
      && (h.sid in w.metas ==> w.metas[h.sid].userID == h.user)
  {
    RunsKeepInv(cfg, INITIAL, steps);
    var w := After(cfg, INITIAL, steps);
    assert Owned(w, h);
    assert h.sid in w.metas ==> Healthy(w, h.sid);
  }

  /**
   Opening. The first mutation to reach a pending session opens it, with the instant its
   notification read as the opening instant and the last access, and the session TTL.
   */
  lemma {:induction false} OpeningTakesEffect(cfg: Config, steps: seq<Step>, o: nat)
    requires Legal(cfg, INITIAL, steps)
    requires var w := After(cfg, INITIAL, steps);
      o in w.openings && w.openings[o].h.sid in w.metas && w.metas[w.openings[o].h.sid].state.Pending?
    ensures var w := After(cfg, INITIAL, steps);
      var op := w.openings[o];
      var m' := Next(cfg, w, DoOpen(o, true)).metas[op.h.sid];
      && m'.state.Opened? && m'.openedAt == Some(op.at) && m'.ttl == cfg.sessionTTL && m'.lastAccess == op.at
      && m'.updatedAt == w.now
  {
    RunsKeepInv(cfg, INITIAL, steps);
    var w := After(cfg, INITIAL, steps);
    assert Owned(w, w.openings[o].h) && Healthy(w, w.openings[o].h.sid);
  }

  /** Some live load touches the session in this run, later than the given instant. */
  predicate TouchedAfter(cfg: Config, w: World, steps: seq<Step>, sid: SessionId, at: Time)
    requires Legal(cfg, w, steps)
    decreases |steps|
  {
    && steps != []
    && (|| (steps[0].DoTouch? && steps[0].live && w.loads[steps[0].l].sid == sid && at < w.now)
        || TouchedAfter(cfg, Next(cfg, w, steps[0]), steps[1..], sid, at))
  }

  /** One step on a session that is pending after it. */
  lemma {:induction false} PendingStep(cfg: Config, w: World, step: Step, sid: SessionId, at: Time)
    requires Enabled(w, step) && sid in w.metas && WellFormed(w.metas[sid], w.now)
    requires sid in Next(cfg, w, step).metas && Next(cfg, w, step).metas[sid].state.Pending?
    ensures at < Next(cfg, w, step).metas[sid].lastAccess <==>
      at < w.metas[sid].lastAccess || (step.DoTouch? && step.live && w.loads[step.l].sid == sid && at < w.now)
  {
    RecordAfter(cfg, w, step, sid);
  }

  /** While a session stays pending, only touches move its last access. */
  lemma {:induction false} PendingAccess(cfg: Config, w: World, steps: seq<Step>, sid: SessionId, at: Time)
    requires Inv(cfg, w) && Legal(cfg, w, steps) && sid in w.born
    requires sid in After(cfg, w, steps).metas && After(cfg, w, steps).metas[sid].state.Pending?
    ensures sid in w.metas
    ensures at < After(cfg, w, steps).metas[sid].lastAccess <==>
      at < w.metas[sid].lastAccess || TouchedAfter(cfg, w, steps, sid, at)
    decreases |steps|
  {
    if steps != [] {
      var w' := Next(cfg, w, steps[0]);
      NextEvolves(cfg, w, steps[0], sid);
      NextKeepsInv(cfg, w, steps[0]);
      RecordsOnlyEvolve(cfg, w', steps[1..], sid);
      assert Healthy(w, sid);
      PendingStep(cfg, w, steps[0], sid, at);
      PendingAccess(cfg, w', steps[1..], sid, at);
    }
  }

  /**
   When opening sets the last access back. Between the notification's clock reading and its
   mutation anything may happen; the mutation moves the last access of the still pending
   session back if and only if some load touched it in between, later than the reading.
   */
  lemma {:induction false} OpeningSetsBackIffTouched(cfg: Config, before: seq<Step>, o: nat, h: Handle, between: seq<Step>)
    requires Legal(cfg, INITIAL, before)
    requires var w := After(cfg, INITIAL, before);
      Enabled(w, DoStamp(o, h)) && Legal(cfg, Next(cfg, w, DoStamp(o, h)), between)
    requires var w := After(cfg, INITIAL, before);
      var w' := After(cfg, Next(cfg, w, DoStamp(o, h)), between);
      && o in w'.openings && w'.openings[o] == Opening(h, w.now)
      && h.sid in w'.metas && w'.metas[h.sid].state.Pending?
    ensures var w := After(cfg, INITIAL, before);
      var stamped := Next(cfg, w, DoStamp(o, h));
      var w' := After(cfg, stamped, between);
      && h.sid in Next(cfg, w', DoOpen(o, true)).metas
      && (Next(cfg, w', DoOpen(o, true)).metas[h.sid].lastAccess < w'.metas[h.sid].lastAccess
          <==> TouchedAfter(cfg, stamped, between, h.sid, w.now))
  {
    RunsKeepInv(cfg, INITIAL, before);
    var w := After(cfg, INITIAL, before);
    var stamped := Next(cfg, w, DoStamp(o, h));
    NextKeepsInv(cfg, w, DoStamp(o, h));
    RunsKeepInv(cfg, stamped, between);
    var w' := After(cfg, stamped, between);
    assert Owned(w, h);
    PendingAccess(cfg, stamped, between, h.sid, w.now);
    assert Healthy(stamped, h.sid) && Healthy(w', h.sid) && Owned(w', h);
  }

  /**
   The handshake is all or nothing, per session and over whole runs. A successful one stored
   a pending record of what the client asked for, announced what the server offers and the
   version stored, and the record exists until a client deletes it. A
   failed one leaves a record if and only if it got as far as storing one, the context had
   ended when it came to clean up, and no client deleted it.
   */
  lemma {:induction false} HandshakeIsAllOrNothing(cfg: Config, steps: seq<Step>, sid: SessionId)
    requires Legal(cfg, INITIAL, steps)
    requires sid in After(cfg, INITIAL, steps).attempts && After(cfg, INITIAL, steps).attempts[sid].stage.Done?
    ensures var w := After(cfg, INITIAL, steps);
      var c := w.attempts[sid].call;
      match w.attempts[sid].stage.r
      case Err(_) => sid in w.metas <==> sid in w.born && !c.liveAtCleanup && sid !in w.deleted
      case Ok(res) =>
        && (sid in w.metas <==> sid !in w.deleted)
        && (sid in w.metas ==> sid in w.born && Evolves(w.born[sid], w.metas[sid]))
        && c.sid == sid && c.req.Some? && sid in w.born
        && var m, s := w.born[sid], c.server;
        && m.sessionID == c.sid && m.userID == c.user != ""
        && m.clientVersion == c.req.value.version && m.clientName == c.req.value.name && m.clientBuild == c.req.value.build
        && (m.caps.sampling <==> c.req.value.caps.sampling) && (m.caps.elicitation <==> c.req.value.caps.elicitation)
        && (m.caps.roots <==> c.req.value.caps.roots.Some?)
        && (m.caps.rootsListChanged <==> c.req.value.caps.roots == Some(true))
        && m.state.Pending? && m.openedAt.None? && !m.revoked
        && m.createdAt == m.updatedAt == m.lastAccess == c.now
        && m.ttl == cfg.handshakeTTL && m.maxLifetime == cfg.maxLifetime
        && res.version == m.serverVersion
        && res.info == (if s.info.Present? then s.info.value else "")
        && res.instructions == (if s.instructions.Present? then Some(s.instructions.value) else None)
        && (res.resources.Some? <==> s.resources.Present?)
        && (res.resources.Some? ==>
              && (res.resources.value.listChanged <==> s.resources.value.listChanged.Present?)
              && (res.resources.value.subscribe <==> s.resources.value.sub.Present? || s.resources.value.eventSource))
        && (res.tools.Some? <==> s.tools.Present?)
        && (res.tools.Some? ==> (res.tools.value <==> s.tools.value.listChanged.Present?))
        && (res.prompts.Some? <==> s.prompts.Present?)
        && (res.prompts.Some? ==> (res.prompts.value <==> s.prompts.value.listChanged.Present?))
        && (res.logging <==> s.logging.Present?) && (res.completions <==> s.completions.Present?)
  {
    RunsKeepInv(cfg, INITIAL, steps);
    var w := After(cfg, INITIAL, steps);
    assert Accounted(cfg, w, sid);
    assert sid in w.metas ==> Healthy(w, sid);
  }

  /** The caller gets a handle from the handshake exactly when every callback answered. */
  lemma {:induction false} HandleOnSuccessOnly(cfg: Config, w: World, sid: SessionId)
    requires Enabled(w, DoFinish(sid)) && w.attempts[sid].call.sid == sid
    ensures var c, w' := w.attempts[sid].call, Next(cfg, w, DoFinish(sid));
      && w'.attempts[sid].stage.Done?
      && (w'.attempts[sid].stage.r.Ok? <==> AllAnswered(c.server))
      && w'.handles == (if w'.attempts[sid].stage.r.Ok? then w.handles + {Handle(sid, c.user)} else w.handles)
  {
  }

  /** When a handshake succeeds, from what the client sent and what the server's callbacks answered. */
  lemma {:induction false} HandshakeSucceedsIff(cfg: Config, metas: Metas, c: InitCall)
    ensures Initialize(cfg, metas, c).1.Ok? <==>
      && c.req.Some? && c.req.value.version != "" && c.user != "" && c.liveAtCreate && c.sid !in metas
      && (c.req.value.version == "2025-06-18" || c.server.preferred.Absent?
          || (c.server.preferred.Present? && c.server.preferred.value in {"", "2025-06-18"}))
      && !c.server.info.Raised? && !c.server.instructions.Raised? && !c.server.logging.Raised? && !c.server.completions.Raised?
      && !c.server.resources.Raised? && !c.server.tools.Raised? && !c.server.prompts.Raised?
      && (c.server.resources.Present? ==> !c.server.resources.value.sub.Raised? && !c.server.resources.value.listChanged.Raised?)
      && (c.server.tools.Present? ==> !c.server.tools.value.listChanged.Raised?)
      && (c.server.prompts.Present? ==> !c.server.prompts.value.listChanged.Raised?)
    ensures Initialize(cfg, metas, c).1.Err? ==>
      match Initialize(cfg, metas, c).1.error
      case NoRequest => c.req.None?
      case BadVersion => c.req.Some? && c.req.value.version != "2025-06-18"
      case BadUser => c.user == ""
      case CreateFailed => !c.liveAtCreate || c.sid in metas
      case ServerFailed => c.req.Some?
  {
  }

  /** Undisturbed, a failed handshake leaves the map as it was exactly when nothing was stored or clean-up was allowed. */
  lemma {:induction false} FailureLeavesNoTraceIff(cfg: Config, metas: Metas, c: InitCall)
    requires Initialize(cfg, metas, c).1.Err?
    ensures Initialize(cfg, metas, c).0 == metas <==> CreateOutcome(cfg, metas, c).Err? || c.liveAtCleanup
  {
    if CreateOutcome(cfg, metas, c).Ok? {
      var m := CreateOutcome(cfg, metas, c).value;
      assert metas[c.sid := m] - {c.sid} == metas;
      assert c.sid in metas[c.sid := m];
    }
  }

  // ----- the failing cases -----

  lemma {:induction false} Prepend(cfg: Config, w: World, step: Step, rest: seq<Step>)
    requires Enabled(w, step) && Legal(cfg, Next(cfg, w, step), rest)
    ensures Legal(cfg, w, [step] + rest) && After(cfg, w, [step] + rest) == After(cfg, Next(cfg, w, step), rest)
  {
    assert ([step] + rest)[1..] == rest;
  }

  const QUIET := Server(Absent, Absent, Absent, Absent, Absent, Absent, Absent, Absent)
  const HELLO := InitRequest(LATEST_VERSION, "", "", ClientCaps(false, None, false))

  /** A handshake whose server fails after the context ended returns an error and leaves its record. */
  lemma {:induction false} AbandonedHandshakeLeavesRecord(cfg: Config, sid: SessionId, user: UserId)
    requires user != ""
    ensures exists steps: seq<Step> :: (
      && Legal(cfg, INITIAL, steps)
      && var w := After(cfg, INITIAL, steps);
      && sid in w.attempts && w.attempts[sid].stage == Done(Err(ServerFailed))
      && sid in w.metas && w.deleted == {})
  {
    var c := InitCall(user, Some(HELLO), sid, 0, QUIET.(info := Raised), true, false);
    var w1 := Next(cfg, INITIAL, DoCreate(c));
    var w2 := Next(cfg, w1, DoFinish(sid));
    assert sid in w2.metas;
    Prepend(cfg, w1, DoFinish(sid), []);
    Prepend(cfg, INITIAL, DoCreate(c), [DoFinish(sid)]);
  }

  /** A touch between the clock reading and the mutation: opening moves the last access back. */
  lemma {:induction false} OpeningSetsLastAccessBack(cfg: Config, w: World, o: nat, l: nat)
    requires o in w.openings && l in w.loads && w.loads[l].sid == w.openings[o].h.sid
    requires w.openings[o].h.sid in w.metas && w.openings[o].at < w.now
    requires var m := w.metas[w.openings[o].h.sid]; m.state.Pending? && !m.revoked && m.userID == w.openings[o].h.user
    ensures var sid := w.openings[o].h.sid;
      var touched := Next(cfg, w, DoTouch(l, true));
      && sid in touched.metas && o in touched.openings
      && Next(cfg, touched, DoOpen(o, true)).metas[sid].lastAccess < touched.metas[sid].lastAccess
  {
  }

  /** Such a state is reached: one session, one notification in flight, one load in flight. */
  lemma {:induction false} OpeningCanRaceATouch(cfg: Config, sid: SessionId, user: UserId)
    requires user != ""
    ensures exists steps: seq<Step> :: (
      && Legal(cfg, INITIAL, steps)
      && var w := After(cfg, INITIAL, steps);
      && 0 in w.openings && 0 in w.loads && w.loads[0].sid == w.openings[0].h.sid == sid
      && sid in w.metas && w.openings[0].at < w.now
      && w.metas[sid].state.Pending? && !w.metas[sid].revoked && w.metas[sid].userID == w.openings[0].h.user)
  {
    var c := InitCall(user, Some(HELLO), sid, 0, QUIET, true, true);
    var h := Handle(sid, user);
    var w1 := Next(cfg, INITIAL, DoCreate(c));
    var w2 := Next(cfg, w1, DoFinish(sid));
    assert sid in w2.metas && h in w2.handles && w2.metas[sid].state.Pending?;
    var w3 := Next(cfg, w2, DoStamp(0, h));
    var w4 := Next(cfg, w3, DoCheck(0, sid, user, true));
    Prepend(cfg, w4, Tick(1), []);
    Prepend(cfg, w3, DoCheck(0, sid, user, true), [Tick(1)]);
    var s3 := [DoCheck(0, sid, user, true)] + [Tick(1)];
    Prepend(cfg, w2, DoStamp(0, h), s3);
    Prepend(cfg, w1, DoFinish(sid), [DoStamp(0, h)] + s3);
    Prepend(cfg, INITIAL, DoCreate(c), [DoFinish(sid)] + ([DoStamp(0, h)] + s3));
  }
}
