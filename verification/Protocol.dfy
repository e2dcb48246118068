/** The endpoint lifecycle as a state machine over every thread of the plugin.

    One step is one critical section of `mu`, one save under `saveMu`, or one outcome of
    the kernel, udhcpc or Docker. A thread is a role (where it is in its handler) and
    possibly a manager it holds. `Apply` is total: a step that is not possible in a state
    leaves it unchanged, so a run is any sequence of steps.

    A handler that leaves `mu` with a snapshot to save is split in two: it goes on, and the
    snapshot waits in `stateWrites` or `netWrites`. This allows every interleaving of the
    program and more. */
module Protocol {
  import opened Types
  import opened TableOps
  import StateFile

  // -------------------------------------------------------------------------
  // Threads
  // -------------------------------------------------------------------------

  datatype Request =
    | ForCreate(net: NetworkId, ep: EndpointId)
    | ForJoin(net: NetworkId, ep: EndpointId, sandbox: string)

  /** Where option lookup stands: the cache, then Docker, then the endpoint records. */
  datatype Lookup = AskCache | AskDocker | AskRecords

  datatype CreatePoint = AddLink | WriteIndex | GetV4 | GetV6 | Undo

  datatype BackPoint = Spawned | Starting | Discarding | Naming(hostname: string) | Exiting

  datatype LeavePoint = Entering | Stopping | Marked | Removing

  datatype RestorePoint =
    | Next
    | Checking(attempt: nat)
    | Opening(attempt: nat)
    | Discarding(attempt: nat, restored: bool)
    | Failed(attempt: nat)

  datatype Role =
    | Resolving(req: Request, at: Lookup)
    | Creating(net: NetworkId, ep: EndpointId, opts: NetOptions, create: CreatePoint)
    | Joining(req: Request, opts: NetOptions)
    | Persisting(req: Request, opts: NetOptions, hint: Hint)
    | Background(req: Request, opts: NetOptions, hint: Hint, back: BackPoint)
    | Leaving(ep: EndpointId, leave: LeavePoint)
    | Deleting(ep: EndpointId)
    | Restoring(todo: seq<EndpointRecord>, restore: RestorePoint)

  /** How far the start of a held manager has got. */
  datatype Phase = NsOpen | BothOpen | Running

  datatype Hold = Hold(m: ManagerId, ep: EndpointId, phase: Phase)

  /** What has been done to the resources of one manager. Its namespace handle was opened once. */
  datatype Life = Life(ep: EndpointId, nsClosed: nat, nlOpened: nat, nlClosed: nat, started: bool, stops: nat)

  datatype World = World(
    tables: Tables,
    roles: map<Tid, Role>,
    holds: map<Tid, Hold>,
    lives: map<ManagerId, Life>,
    stateWrites: map<nat, StateTable>,
    netWrites: map<nat, NetTable>,
    ticket: nat,
    stateFile: seq<EndpointRecord>,
    netFile: seq<NetworkRecord>)

  // -------------------------------------------------------------------------
  // Steps
  // -------------------------------------------------------------------------

  datatype Step =
    | BeginCreate(t: Tid, net: NetworkId, ep: EndpointId)
    | BeginJoin(t: Tid, net: NetworkId, ep: EndpointId, sandbox: string)
    | BeginLeave(t: Tid, ep: EndpointId)
    | BeginDelete(t: Tid, ep: EndpointId)
    | BeginRestore(t: Tid, todo: seq<EndpointRecord>)
    | LookInCache(t: Tid)
    | LookInDocker(t: Tid, net: NetworkId, answer: Answer)
    | LookInRecords(t: Tid, pick: EndpointId)
    | LinkAdded(t: Tid)
    | IndexRead(t: Tid, index: int)
    | GotV4(t: Tid, ip: string, gateway: string)
    | GotV6(t: Tid, ip: string)
    | CreateFails(t: Tid)
    | CreateUndone(t: Tid)
    | TakeHint(t: Tid)
    | RoutesFail(t: Tid)
    | Persist(t: Tid)
    | RegisterJoin(t: Tid)
    | OpenNs(t: Tid, m: ManagerId, ok: bool)
    | OpenNl(t: Tid, ok: bool)
    | StartClients(t: Tid, ok: bool)
    | CommitJoinStep(t: Tid, hostname: string)
    | StopHeld(t: Tid)
    | NameEntry(t: Tid)
    | ExitJoin(t: Tid)
    | EnterLeaveStep(t: Tid)
    | FinishLeave(t: Tid)
    | FinishDelete(t: Tid)
    | RestoreNext(t: Tid)
    | RestoreCheck(t: Tid)
    | CommitRestoreStep(t: Tid)
    | RestoreRetry(t: Tid)
    | RestoreDrop(t: Tid)
    | RestoreCancelled(t: Tid)
    | CreateNetwork(net: NetworkId, opts: NetOptions)
    | DeleteNetwork(net: NetworkId)
    | WriteState(w: nat, ok: bool, entries: seq<EndpointRecord>)
    | WriteNets(w: nat, ok: bool, networks: seq<NetworkRecord>)
    | Crash

  function Boot(stateFile: seq<EndpointRecord>, netFile: seq<NetworkRecord>): World {
    World(
      Tables(map[], map[], StateFile.Load(stateFile), map[], {}, StateFile.LoadNets(netFile)),
      map[], map[], map[], map[], map[], 0, stateFile, netFile)
  }

  function Become(w: World, t: Tid, r: Role): World {
    w.(roles := w.roles[t := r])
  }

  function End(w: World, t: Tid): World {
    w.(roles := w.roles - {t})
  }

  /** Leave `mu` with new tables and a snapshot of the records to save. */
  function SaveRecords(w: World, tables: Tables): World {
    w.(tables := tables, stateWrites := w.stateWrites[w.ticket := tables.records], ticket := w.ticket + 1)
  }

  function SaveNets(w: World, tables: Tables): World {
    w.(tables := tables, netWrites := w.netWrites[w.ticket := tables.networks], ticket := w.ticket + 1)
  }

  /** Dropping a record that is not there saves nothing. */
  function RemoveRecord(w: World, ep: EndpointId): (r: World)
    ensures r.tables.left == w.tables.left - {ep} && r.tables.cancels == w.tables.cancels
    ensures r.roles == w.roles && r.tables.records == w.tables.records - {ep}
  {
    var tables := RemoveEntry(w.tables, ep);
    if ep in w.tables.records then SaveRecords(w, tables) else w.(tables := tables)
  }

  predicate Idle(w: World, t: Tid) {
    t !in w.roles && t !in w.holds
  }

  /** `t` runs and holds no manager. */
  predicate Free(w: World, t: Tid) {
    t in w.roles && t !in w.holds
  }

  predicate Holding(w: World, t: Tid, phase: Phase) {
    t in w.roles && t in w.holds && w.holds[t].phase == phase
  }

  // -------------------------------------------------------------------------
  // Frames
  // -------------------------------------------------------------------------

  /** The parts of the state that a step may touch, apart from the role of its own thread. */
  datatype Part = Owners | Records | Nets | Hints | Marks

  predicate SameOwners(w: World, w': World) {
    w'.holds == w.holds && w'.lives == w.lives && w'.tables.managers == w.tables.managers
  }

  predicate SameRecords(w: World, w': World) {
    w'.tables.records == w.tables.records && w'.stateWrites == w.stateWrites && w'.stateFile == w.stateFile
  }

  predicate SameNets(w: World, w': World) {
    w'.tables.networks == w.tables.networks && w'.netWrites == w.netWrites && w'.netFile == w.netFile
  }

  predicate SameMarks(w: World, w': World) {
    w'.tables.cancels == w.tables.cancels && w'.tables.left == w.tables.left
  }

  /** Only the role of `t` and the given parts change; a thread that holds a manager goes on. */
  ghost predicate Only(w: World, w': World, t: Tid, parts: set<Part>) {
    (Owners in parts || SameOwners(w, w')) &&
    (Records in parts || SameRecords(w, w')) &&
    (Nets in parts || SameNets(w, w')) &&
    (Hints in parts || w'.tables.hints == w.tables.hints) &&
    (Marks in parts || SameMarks(w, w')) &&
    w.ticket <= w'.ticket &&
    (forall u | u != t :: u in w.roles <==> u in w'.roles) &&
    (forall u | u != t && u in w.roles :: w'.roles[u] == w.roles[u]) &&
    (t in w.roles && t in w'.holds ==> t in w'.roles)
  }

  /** Where the new role of a thread comes from: its request, options and hint are carried
      along from the roles before it. */
  ghost predicate RoleFrom(w: World, w': World, t: Tid) {
    t in w'.roles ==> t in w.roles && Follows(w, w', w.roles[t], w'.roles[t])
  }

  /** A new thread with this role. */
  ghost predicate Started(w: World, w': World, t: Tid, role: Role) {
    Idle(w, t) && t in w'.roles && w'.roles[t] == role
  }

  /** The three sources of a network's options: the cache, Docker (which fills the cache), or
      some endpoint record of the network. */
  ghost predicate Offered(w: World, w': World, net: NetworkId, opts: NetOptions) {
    (net in w.tables.networks && opts == CachedOptions(w.tables.networks[net])) ||
    (net in w'.tables.networks && w'.tables.networks[net] == NetworkRecordOf(net, opts)) ||
    (exists id ::
      id in w.tables.records && w.tables.records[id].networkID == net && opts == RecordedOptions(w.tables.records[id]))
  }

  /** A thread that is looking options up does nothing else. */
  ghost predicate KeepsLooking(w: World, w': World, t: Tid) {
    t in w.roles && w.roles[t].Resolving? ==> t in w'.roles && w'.roles[t] == w.roles[t]
  }

  /** A Join thread past its registration stays one until it exits, and a Leave that has
      left its mark stays put until its deferred removal. */
  ghost predicate KeepsMarked(w: World, w': World, t: Tid) {
    (t in w.roles && w.roles[t].Background? && w.roles[t].back != Spawned ==>
      t in w'.roles && w'.roles[t].Background? && w'.roles[t].req == w.roles[t].req && w'.roles[t].back != Spawned) &&
    (t in w.roles && w.roles[t].Leaving? && w.roles[t].leave == Marked ==> t in w'.roles && w'.roles[t] == w.roles[t])
  }

  /** A CreateEndpoint in progress goes on only by its own steps. */
  ghost predicate KeepsCreating(w: World, w': World, t: Tid) {
    t in w.roles && w.roles[t].Creating? ==> t in w'.roles && w'.roles[t] == w.roles[t]
  }

  /** A Restore in progress goes on only by its own steps. */
  ghost predicate KeepsRestoring(w: World, w': World, t: Tid) {
    t in w.roles && w.roles[t].Restoring? ==> t in w'.roles && w'.roles[t] == w.roles[t]
  }

  function PhaseOf(w: World, t: Tid): Option<Phase> {
    if t in w.holds then Some(w.holds[t].phase) else None
  }

  /** What a thread holds at each point: only while it starts or stops a manager anything. */
  predicate Fitting(r: Role, phase: Option<Phase>) {
    match r
    case Joining(req, _) => phase.None? && req.ForJoin?
    case Persisting(req, _, _) => phase.None? && req.ForJoin?
    case Background(_, _, _, Starting) => true
    case Background(_, _, _, Discarding) => phase == Some(Running)
    case Leaving(_, Stopping) => phase == Some(Running)
    case Restoring(todo, Next) => phase.None?
    case Restoring(todo, Opening(_)) => todo != []
    case Restoring(todo, Discarding(_, _)) => todo != [] && phase == Some(Running)
    case Restoring(todo, _) => todo != [] && phase.None?
    case _ => phase.None?
  }

  /** The endpoint whose manager the thread starts or stops. */
  function WorksOn(r: Role): Option<EndpointId> {
    match r
    case Background(req, _, _, _) => Some(req.ep)
    case Leaving(ep, _) => Some(ep)
    case Restoring(todo, _) => if todo != [] then Some(todo[0].endpointID) else None
    case _ => None
  }

  predicate WellHeld(w: World, t: Tid) {
    if t in w.roles then
      Fitting(w.roles[t], PhaseOf(w, t)) && (t in w.holds ==> WorksOn(w.roles[t]) == Some(w.holds[t].ep))
    else t !in w.holds
  }

  /** Steps left in starting a manager. */
  function ToStart(phase: Option<Phase>): nat {
    match phase
    case None => 3
    case Some(NsOpen) => 2
    case Some(BothOpen) => 1
    case Some(Running) => 0
  }

  /** At most this many steps of a Restore are spent on one endpoint. */
  const PER_ENDPOINT := 10 * (RETRIES + 1) + 2

  /** A bound on the steps a thread has before it. */
  function Left(r: Role, phase: Option<Phase>): nat {
    match r
    case Resolving(_, at) => if at == AskCache then 16 else if at == AskDocker then 15 else 14
    case Creating(_, _, _, p) =>
      (match p case AddLink => 5 case WriteIndex => 4 case GetV4 => 3 case GetV6 => 2 case Undo => 1)
    case Joining(_, _) => 13
    case Persisting(_, _, _) => 12
    case Background(_, _, _, p) =>
      (match p
       case Spawned => 11
       case Starting => 5 + ToStart(phase)
       case Discarding => 2
       case Naming(_) => 2
       case Exiting => 1)
    case Leaving(_, p) => (match p case Entering => 3 case Stopping => 2 case Marked => 1 case Removing => 1)
    case Deleting(_) => 1
    case Restoring(todo, p) =>
      var later := if todo == [] then 0 else PER_ENDPOINT * (|todo| - 1);
      match p
      case Next => PER_ENDPOINT * |todo| + 1
      case Checking(a) => later + Retries(a) + 10
      case Opening(a) => later + Retries(a) + 6 + ToStart(phase)
      case Discarding(a, _) => later + Retries(a) + 5
      case Failed(a) => later + Retries(a) + 4
  }

  function Retries(attempt: nat): nat {
    if attempt < RETRIES then 10 * (RETRIES - attempt) else 0
  }

  /** A step of `t` leaves what others hold alone, keeps `t` holding what fits its point, and
      brings it nearer to its end unless it changes nothing at all. */
  ghost predicate Moves(w: World, w': World, t: Tid) {
    (forall u | u != t :: (u in w.holds <==> u in w'.holds) && (u in w.holds ==> w'.holds[u] == w.holds[u])) &&
    (WellHeld(w, t) ==> WellHeld(w', t)) &&
    (t in w.roles && t in w'.roles && w' != w ==>
      Left(w'.roles[t], PhaseOf(w', t)) < Left(w.roles[t], PhaseOf(w, t)))
  }

  ghost predicate Follows(w: World, w': World, r: Role, r': Role) {
    match r'
    case Resolving(req, _) => r.Resolving? && r.req == req
    case Creating(net, ep, opts, p) =>
      (r.Creating? && r.net == net && r.ep == ep && r.opts == opts) ||
      (r.Resolving? && r.req == ForCreate(net, ep) && p == AddLink && Offered(w, w', net, opts))
    case Joining(req, opts) =>
      r == r' ||
      (r.Resolving? && r.req == req && req.ForJoin? && Offered(w, w', req.net, opts))
    case Persisting(req, opts, hint) =>
      r == r' ||
      (r == Joining(req, opts) && req.ep in w.tables.hints && w.tables.hints[req.ep] == hint &&
       req.ep !in w'.tables.hints)
    case Background(req, opts, hint, _) =>
      r == Persisting(req, opts, hint) || (r.Background? && r.req == req && r.opts == opts && r.hint == hint)
    case Leaving(ep, _) => r.Leaving? && r.ep == ep
    case Deleting(ep) => r == r'
    case Restoring(todo, _) => r.Restoring? && forall e | e in todo :: e in r.todo
  }

  function Resolved(w: World, t: Tid, req: Request, opts: NetOptions): World {
    match req
    case ForCreate(net, ep) => Become(w, t, Creating(net, ep, opts, AddLink))
    case ForJoin(_, _, _) => Become(w, t, Joining(req, opts))
  }

  function DoBegin(w: World, t: Tid, role: Role): (r: World)
    requires role.Resolving? || role.Leaving? || role.Deleting? || role.Restoring?
    requires Fitting(role, None)
    ensures Only(w, r, t, {})
    ensures RoleFrom(w, r, t) || Started(w, r, t, role)
    ensures KeepsCreating(w, r, t)
    ensures KeepsMarked(w, r, t)
    ensures KeepsLooking(w, r, t)
    ensures KeepsRestoring(w, r, t)
    ensures Moves(w, r, t)
  {
    if Idle(w, t) then Become(w, t, role) else w
  }

  function DoLookInCache(w: World, t: Tid): (r: World)
    ensures Only(w, r, t, {})
    ensures RoleFrom(w, r, t)
    ensures KeepsCreating(w, r, t)
    ensures KeepsMarked(w, r, t)
    ensures KeepsRestoring(w, r, t)
    ensures Moves(w, r, t)
  {
    if Free(w, t) && w.roles[t].Resolving? && w.roles[t].at == AskCache then
      var req := w.roles[t].req;
      if req.net in w.tables.networks then Resolved(w, t, req, CachedOptions(w.tables.networks[req.net]))
      else Become(w, t, Resolving(req, AskDocker))
    else w
  }

  function DoLookInDocker(w: World, t: Tid, net: NetworkId, answer: Answer): (r: World)
    ensures Only(w, r, t, {Nets})
    ensures RoleFrom(w, r, t)
    ensures KeepsCreating(w, r, t)
    ensures KeepsMarked(w, r, t)
    ensures KeepsRestoring(w, r, t)
    ensures Moves(w, r, t)
  {
    if Free(w, t) && w.roles[t].Resolving? && w.roles[t].at == AskDocker && w.roles[t].req.net == net then
      var req := w.roles[t].req;
      match answer
      case Unreachable => Become(w, t, Resolving(req, AskRecords))
      case Undecodable => End(w, t)
      case Options(opts) => Resolved(SaveNets(w, AddNetwork(w.tables, NetworkRecordOf(net, opts))), t, req, opts)
    else w
  }

  /** Whichever record of the network the map iteration meets first; none ends the call. */
  function DoLookInRecords(w: World, t: Tid, pick: EndpointId): (r: World)
    ensures Only(w, r, t, {})
    ensures RoleFrom(w, r, t)
    ensures KeepsCreating(w, r, t)
    ensures KeepsMarked(w, r, t)
    ensures KeepsRestoring(w, r, t)
    ensures Moves(w, r, t)
  {
    if Free(w, t) && w.roles[t].Resolving? && w.roles[t].at == AskRecords then
      var req := w.roles[t].req;
      if pick in w.tables.records && w.tables.records[pick].networkID == req.net then
        Resolved(w, t, req, RecordedOptions(w.tables.records[pick]))
      else if forall id | id in w.tables.records :: w.tables.records[id].networkID != req.net then End(w, t)
      else w
    else w
  }

  predicate CreatingAt(w: World, t: Tid, p: CreatePoint) {
    Free(w, t) && w.roles[t].Creating? && w.roles[t].create == p
  }

  function AtCreate(r: Role, p: CreatePoint): Role
    requires r.Creating?
  {
    r.(create := p)
  }

  function DoLinkAdded(w: World, t: Tid): (r: World)
    ensures Only(w, r, t, {})
    ensures RoleFrom(w, r, t)
    ensures KeepsMarked(w, r, t)
    ensures KeepsLooking(w, r, t)
    ensures KeepsRestoring(w, r, t)
    ensures Moves(w, r, t)
  {
    if CreatingAt(w, t, AddLink) then
      Become(w, t, AtCreate(w.roles[t], if NetMode(w.roles[t].opts.mode) == BRIDGE then GetV4 else WriteIndex))
    else w
  }

  /** The kernel gives every interface a positive index. */
  function DoIndexRead(w: World, t: Tid, index: int): (r: World)
    ensures Only(w, r, t, {Hints})
    ensures RoleFrom(w, r, t)
    ensures KeepsMarked(w, r, t)
    ensures KeepsLooking(w, r, t)
    ensures KeepsRestoring(w, r, t)
    ensures Moves(w, r, t)
  {
    if CreatingAt(w, t, WriteIndex) && index > 0 then
      Become(w.(tables := PutIndex(w.tables, w.roles[t].ep, index)), t, AtCreate(w.roles[t], GetV4))
    else w
  }

  function DoGotV4(w: World, t: Tid, ip: string, gateway: string): (r: World)
    ensures Only(w, r, t, {Hints})
    ensures RoleFrom(w, r, t)
    ensures KeepsMarked(w, r, t)
    ensures KeepsLooking(w, r, t)
    ensures KeepsRestoring(w, r, t)
    ensures Moves(w, r, t)
  {
    if CreatingAt(w, t, GetV4) then
      var w' := w.(tables := PutV4(w.tables, w.roles[t].ep, ip, gateway));
      if w.roles[t].opts.ipv6 then Become(w', t, AtCreate(w.roles[t], GetV6)) else End(w', t)
    else w
  }

  function DoGotV6(w: World, t: Tid, ip: string): (r: World)
    ensures Only(w, r, t, {Hints})
    ensures RoleFrom(w, r, t)
    ensures KeepsMarked(w, r, t)
    ensures KeepsLooking(w, r, t)
    ensures KeepsRestoring(w, r, t)
    ensures Moves(w, r, t)
  {
    if CreatingAt(w, t, GetV6) then End(w.(tables := PutV6(w.tables, w.roles[t].ep, ip)), t) else w
  }

  /** A failure before the link exists just ends the call; a later one must clean up. */
  function DoCreateFails(w: World, t: Tid): (r: World)
    ensures Only(w, r, t, {})
    ensures RoleFrom(w, r, t)
    ensures KeepsMarked(w, r, t)
    ensures KeepsLooking(w, r, t)
    ensures KeepsRestoring(w, r, t)
    ensures Moves(w, r, t)
  {
    if Free(w, t) && w.roles[t].Creating? && w.roles[t].create != Undo then
      if w.roles[t].create == AddLink then End(w, t) else Become(w, t, AtCreate(w.roles[t], Undo))
    else w
  }

  function DoCreateUndone(w: World, t: Tid): (r: World)
    ensures Only(w, r, t, {Hints})
    ensures RoleFrom(w, r, t)
    ensures KeepsMarked(w, r, t)
    ensures KeepsLooking(w, r, t)
    ensures KeepsRestoring(w, r, t)
    ensures Moves(w, r, t)
  {
    if CreatingAt(w, t, Undo) then End(w.(tables := DropHint(w.tables, w.roles[t].ep)), t) else w
  }

  function DoTakeHint(w: World, t: Tid): (r: World)
    ensures Only(w, r, t, {Hints})
    ensures RoleFrom(w, r, t)
    ensures KeepsCreating(w, r, t)
    ensures KeepsMarked(w, r, t)
    ensures KeepsLooking(w, r, t)
    ensures KeepsRestoring(w, r, t)
    ensures Moves(w, r, t)
  {
    if Free(w, t) && w.roles[t].Joining? then
      var ep := w.roles[t].req.ep;
      if ep in w.tables.hints then
        Become(w.(tables := DropHint(w.tables, ep)), t, Persisting(w.roles[t].req, w.roles[t].opts, w.tables.hints[ep]))
      else End(w, t)
    else w
  }

  /** A failing route lookup ends the call after the hint is gone. */
  function DoRoutesFail(w: World, t: Tid): (r: World)
    ensures Only(w, r, t, {})
    ensures RoleFrom(w, r, t)
    ensures KeepsCreating(w, r, t)
    ensures KeepsMarked(w, r, t)
    ensures KeepsLooking(w, r, t)
    ensures KeepsRestoring(w, r, t)
    ensures Moves(w, r, t)
  {
    if Free(w, t) && w.roles[t].Persisting? then End(w, t) else w
  }

  predicate CanPersist(w: World, t: Tid) {
    Free(w, t) && w.roles[t].Persisting? && w.roles[t].req.ForJoin?
  }

  function PersistedRecord(r: Role): EndpointRecord
    requires r.Persisting? && r.req.ForJoin?
  {
    JoinRecord(r.req.net, r.req.ep, r.req.sandbox, r.opts, r.hint)
  }

  function DoPersist(w: World, t: Tid): (r: World)
    ensures Only(w, r, t, {Records})
    ensures RoleFrom(w, r, t)
    ensures KeepsCreating(w, r, t)
    ensures KeepsMarked(w, r, t)
    ensures KeepsLooking(w, r, t)
    ensures KeepsRestoring(w, r, t)
    ensures Moves(w, r, t)
  {
    if CanPersist(w, t) then
      var r := w.roles[t];
      Become(SaveRecords(w, AddEntry(w.tables, PersistedRecord(r))), t, Background(r.req, r.opts, r.hint, Spawned))
    else w
  }

  predicate BackAt(w: World, t: Tid, p: BackPoint) {
    t in w.roles && w.roles[t].Background? && w.roles[t].back == p
  }

  function AtBack(r: Role, p: BackPoint): Role
    requires r.Background?
  {
    r.(back := p)
  }

  function DoRegisterJoin(w: World, t: Tid): (r: World)
    ensures Only(w, r, t, {Marks})
    ensures RoleFrom(w, r, t)
    ensures KeepsCreating(w, r, t)
    ensures KeepsMarked(w, r, t)
    ensures KeepsLooking(w, r, t)
    ensures KeepsRestoring(w, r, t)
    ensures Moves(w, r, t)
  {
    if Free(w, t) && BackAt(w, t, Spawned) then
      Become(w.(tables := RegisterCancel(w.tables, w.roles[t].req.ep, t)), t, AtBack(w.roles[t], Starting))
    else w
  }

  predicate RestoringAt(w: World, t: Tid) {
    t in w.roles && w.roles[t].Restoring? && w.roles[t].todo != []
  }

  /** The thread is starting a manager, for the endpoint given by `StartingFor`. */
  predicate IsStarting(w: World, t: Tid) {
    BackAt(w, t, Starting) || (RestoringAt(w, t) && w.roles[t].restore.Opening?)
  }

  function StartingFor(r: Role): EndpointId
    requires r.Background? || (r.Restoring? && r.todo != [])
  {
    if r.Background? then r.req.ep else r.todo[0].endpointID
  }

  /** Where a thread goes when its manager does not start. */
  function StartFailed(r: Role): Role
    requires r.Background? || (r.Restoring? && r.restore.Opening?)
  {
    if r.Background? then AtBack(r, Exiting) else r.(restore := Failed(r.restore.attempt))
  }

  /** A macvlan or ipvlan record without an interface index cannot be located again. */
  predicate Locatable(e: EndpointRecord) {
    NetMode(e.mode) == BRIDGE || e.ifIndex != 0
  }

  function DoOpenNs(w: World, t: Tid, m: ManagerId, ok: bool): (r: World)
    ensures Only(w, r, t, {Owners})
    ensures RoleFrom(w, r, t)
    ensures KeepsCreating(w, r, t)
    ensures KeepsMarked(w, r, t)
    ensures KeepsLooking(w, r, t)
    ensures Moves(w, r, t)
  {
    if Free(w, t) && IsStarting(w, t) && m !in w.lives then
      if ok then
        var ep := StartingFor(w.roles[t]);
        w.(holds := w.holds[t := Hold(m, ep, NsOpen)], lives := w.lives[m := Life(ep, 0, 0, 0, false, 0)])
      else Become(w, t, StartFailed(w.roles[t]))
    else w
  }

  function SetLife(w: World, m: ManagerId, l: Life): World {
    w.(lives := w.lives[m := l])
  }

  function DropHold(w: World, t: Tid): World {
    w.(holds := w.holds - {t})
  }

  function DoOpenNl(w: World, t: Tid, ok: bool): (r: World)
    ensures Only(w, r, t, {Owners})
    ensures RoleFrom(w, r, t)
    ensures KeepsCreating(w, r, t)
    ensures KeepsMarked(w, r, t)
    ensures KeepsLooking(w, r, t)
    ensures Moves(w, r, t)
  {
    if Holding(w, t, NsOpen) && IsStarting(w, t) && w.holds[t].m in w.lives then
      var m := w.holds[t].m;
      var l := w.lives[m];
      if ok then
        SetLife(w.(holds := w.holds[t := w.holds[t].(phase := BothOpen)]), m, l.(nlOpened := l.nlOpened + 1))
      else
        Become(SetLife(DropHold(w, t), m, l.(nsClosed := l.nsClosed + 1)), t, StartFailed(w.roles[t]))
    else w
  }

  /** Locating the interface, reading its address and starting the clients. */
  function DoStartClients(w: World, t: Tid, ok: bool): (r: World)
    ensures Only(w, r, t, {Owners})
    ensures RoleFrom(w, r, t)
    ensures KeepsCreating(w, r, t)
    ensures KeepsMarked(w, r, t)
    ensures KeepsLooking(w, r, t)
    ensures Moves(w, r, t)
  {
    if Holding(w, t, BothOpen) && IsStarting(w, t) && w.holds[t].m in w.lives then
      var m := w.holds[t].m;
      var l := w.lives[m];
      if ok && (w.roles[t].Restoring? ==> Locatable(w.roles[t].todo[0])) then
        SetLife(w.(holds := w.holds[t := w.holds[t].(phase := Running)]), m, l.(started := true))
      else
        Become(SetLife(DropHold(w, t), m, l.(nsClosed := l.nsClosed + 1, nlClosed := l.nlClosed + 1)), t,
          StartFailed(w.roles[t]))
    else w
  }

  predicate CanCommitJoin(w: World, t: Tid) {
    Holding(w, t, Running) && BackAt(w, t, Starting)
  }

  function DoCommitJoin(w: World, t: Tid, hostname: string): (r: World)
    ensures Only(w, r, t, {Owners, Marks})
    ensures RoleFrom(w, r, t)
    ensures KeepsCreating(w, r, t)
    ensures KeepsMarked(w, r, t)
    ensures KeepsLooking(w, r, t)
    ensures KeepsRestoring(w, r, t)
    ensures Moves(w, r, t)
  {
    if CanCommitJoin(w, t) then
      var ep := w.holds[t].ep;
      var w' := w.(tables := CommitJoin(w.tables, ep, w.holds[t].m));
      if ep in w.tables.left then Become(w', t, AtBack(w.roles[t], BackPoint.Discarding))
      else Become(DropHold(w', t), t, AtBack(w.roles[t], if hostname != "" then Naming(hostname) else Exiting))
    else w
  }

  predicate CanStop(w: World, t: Tid) {
    Holding(w, t, Running) && w.holds[t].m in w.lives &&
    match w.roles[t]
    case Background(_, _, _, p) => p == BackPoint.Discarding
    case Leaving(_, p) => p == Stopping
    case Restoring(todo, p) => p.Discarding? && todo != []
    case _ => false
  }

  function AfterStop(r: Role): Role {
    match r
    case Background(_, _, _, _) => AtBack(r, Exiting)
    case Leaving(ep, _) => Leaving(ep, Removing)
    case Restoring(todo, Discarding(a, restored)) =>
      if restored && todo != [] then Restoring(todo[1..], Next) else Restoring(todo, Failed(a))
    case _ => r
  }

  /** Stop closes both handles, whatever it returns. */
  function DoStopHeld(w: World, t: Tid): (r: World)
    ensures Only(w, r, t, {Owners})
    ensures RoleFrom(w, r, t)
    ensures KeepsCreating(w, r, t)
    ensures KeepsMarked(w, r, t)
    ensures KeepsLooking(w, r, t)
    ensures Moves(w, r, t)
  {
    if CanStop(w, t) then
      var m := w.holds[t].m;
      var l := w.lives[m];
      Become(SetLife(DropHold(w, t), m,
        l.(nsClosed := l.nsClosed + 1, nlClosed := l.nlClosed + 1, stops := l.stops + 1)),
        t, AfterStop(w.roles[t]))
    else w
  }

  function DoNameEntry(w: World, t: Tid): (r: World)
    ensures Only(w, r, t, {Records})
    ensures RoleFrom(w, r, t)
    ensures KeepsCreating(w, r, t)
    ensures KeepsMarked(w, r, t)
    ensures KeepsLooking(w, r, t)
    ensures KeepsRestoring(w, r, t)
    ensures Moves(w, r, t)
  {
    if Free(w, t) && w.roles[t].Background? && w.roles[t].back.Naming? then
      Become(SaveRecords(w, SetHostname(w.tables, w.roles[t].req.ep, w.roles[t].back.hostname)), t,
        AtBack(w.roles[t], Exiting))
    else w
  }

  function DoExitJoin(w: World, t: Tid): (r: World)
    ensures Only(w, r, t, {Marks})
    ensures RoleFrom(w, r, t)
    ensures KeepsCreating(w, r, t)
    ensures KeepsLooking(w, r, t)
    ensures KeepsRestoring(w, r, t)
    ensures Moves(w, r, t)
  {
    if Free(w, t) && BackAt(w, t, Exiting) then
      End(w.(tables := DropCancel(w.tables, w.roles[t].req.ep)), t)
    else w
  }

  predicate CanEnterLeave(w: World, t: Tid) {
    Free(w, t) && w.roles[t].Leaving? && w.roles[t].leave == Entering
  }

  function DoEnterLeave(w: World, t: Tid): (r: World)
    ensures Only(w, r, t, {Owners, Marks})
    ensures RoleFrom(w, r, t)
    ensures KeepsCreating(w, r, t)
    ensures KeepsMarked(w, r, t)
    ensures KeepsLooking(w, r, t)
    ensures KeepsRestoring(w, r, t)
    ensures Moves(w, r, t)
  {
    if CanEnterLeave(w, t) then
      var ep := w.roles[t].ep;
      var w' := w.(tables := EnterLeave(w.tables, ep));
      if ep in w.tables.managers then
        Become(w'.(holds := w.holds[t := Hold(w.tables.managers[ep], ep, Running)]), t, Leaving(ep, Stopping))
      else Become(w', t, Leaving(ep, Marked))
    else w
  }

  /** Leave's deferred removal. */
  predicate CanFinishLeave(w: World, t: Tid) {
    Free(w, t) && w.roles[t].Leaving? && (w.roles[t].leave == Marked || w.roles[t].leave == Removing)
  }

  function DoFinishLeave(w: World, t: Tid): (r: World)
    ensures Only(w, r, t, {Records, Marks})
    ensures RoleFrom(w, r, t)
    ensures KeepsCreating(w, r, t)
    ensures KeepsLooking(w, r, t)
    ensures KeepsRestoring(w, r, t)
    ensures Moves(w, r, t)
  {
    if CanFinishLeave(w, t) then End(RemoveRecord(w, w.roles[t].ep), t) else w
  }

  predicate CanFinishDelete(w: World, t: Tid) {
    Free(w, t) && w.roles[t].Deleting?
  }

  function DoFinishDelete(w: World, t: Tid): (r: World)
    ensures Only(w, r, t, {Records, Marks})
    ensures RoleFrom(w, r, t)
    ensures KeepsCreating(w, r, t)
    ensures KeepsMarked(w, r, t)
    ensures KeepsLooking(w, r, t)
    ensures KeepsRestoring(w, r, t)
    ensures Moves(w, r, t)
  {
    if CanFinishDelete(w, t) then End(RemoveRecord(w, w.roles[t].ep), t) else w
  }

  function DoRestoreNext(w: World, t: Tid): (r: World)
    ensures Only(w, r, t, {})
    ensures RoleFrom(w, r, t)
    ensures KeepsCreating(w, r, t)
    ensures KeepsMarked(w, r, t)
    ensures KeepsLooking(w, r, t)
    ensures Moves(w, r, t)
  {
    if Free(w, t) && w.roles[t].Restoring? && w.roles[t].restore == Next then
      if w.roles[t].todo == [] then End(w, t) else Become(w, t, Restoring(w.roles[t].todo, Checking(0)))
    else w
  }

  function DoRestoreCheck(w: World, t: Tid): (r: World)
    ensures Only(w, r, t, {})
    ensures RoleFrom(w, r, t)
    ensures KeepsCreating(w, r, t)
    ensures KeepsMarked(w, r, t)
    ensures KeepsLooking(w, r, t)
    ensures Moves(w, r, t)
  {
    if Free(w, t) && RestoringAt(w, t) && w.roles[t].restore.Checking? then
      var todo := w.roles[t].todo;
      if todo[0].endpointID in w.tables.managers then Become(w, t, Restoring(todo[1..], Next))
      else Become(w, t, Restoring(todo, Opening(w.roles[t].restore.attempt)))
    else w
  }

  predicate CanCommitRestore(w: World, t: Tid) {
    Holding(w, t, Running) && RestoringAt(w, t) && w.roles[t].restore.Opening?
  }

  function DoCommitRestore(w: World, t: Tid): (r: World)
    ensures Only(w, r, t, {Owners, Marks})
    ensures RoleFrom(w, r, t)
    ensures KeepsCreating(w, r, t)
    ensures KeepsMarked(w, r, t)
    ensures KeepsLooking(w, r, t)
    ensures Moves(w, r, t)
  {
    if CanCommitRestore(w, t) then
      var r := w.roles[t];
      var ep := w.holds[t].ep;
      var w' := w.(tables := CommitRestore(w.tables, ep, w.holds[t].m));
      match RestoreVerdict(w.tables, ep)
      case Occupied => Become(w', t, r.(restore := RestorePoint.Discarding(r.restore.attempt, true)))
      case WasLeft => Become(w', t, r.(restore := RestorePoint.Discarding(r.restore.attempt, false)))
      case Registered => Become(DropHold(w', t), t, Restoring(r.todo[1..], Next))
    else w
  }

  predicate RestoreFailedAt(w: World, t: Tid) {
    Free(w, t) && RestoringAt(w, t) && w.roles[t].restore.Failed?
  }

  function DoRestoreRetry(w: World, t: Tid): (r: World)
    ensures Only(w, r, t, {})
    ensures RoleFrom(w, r, t)
    ensures KeepsCreating(w, r, t)
    ensures KeepsMarked(w, r, t)
    ensures KeepsLooking(w, r, t)
    ensures Moves(w, r, t)
  {
    if RestoreFailedAt(w, t) && w.roles[t].restore.attempt < RETRIES then
      Become(w, t, Restoring(w.roles[t].todo, Checking(w.roles[t].restore.attempt + 1)))
    else w
  }

  predicate CanDrop(w: World, t: Tid) {
    RestoreFailedAt(w, t) && w.roles[t].restore.attempt >= RETRIES
  }

  function DoRestoreDrop(w: World, t: Tid): (r: World)
    ensures Only(w, r, t, {Records, Marks})
    ensures RoleFrom(w, r, t)
    ensures KeepsCreating(w, r, t)
    ensures KeepsMarked(w, r, t)
    ensures KeepsLooking(w, r, t)
    ensures Moves(w, r, t)
  {
    if CanDrop(w, t) then
      Become(RemoveRecord(w, w.roles[t].todo[0].endpointID), t, Restoring(w.roles[t].todo[1..], Next))
    else w
  }

  /** The context is looked at between endpoints and while waiting to retry. */
  function DoRestoreCancelled(w: World, t: Tid): (r: World)
    ensures Only(w, r, t, {})
    ensures RoleFrom(w, r, t)
    ensures KeepsCreating(w, r, t)
    ensures KeepsMarked(w, r, t)
    ensures KeepsLooking(w, r, t)
    ensures Moves(w, r, t)
  {
    if Free(w, t) && w.roles[t].Restoring? && (w.roles[t].restore.Next? || w.roles[t].restore.Failed?) then End(w, t)
    else w
  }

  /** A save writes some listing of its snapshot, or fails and leaves the file alone. */
  function DoWriteState(w: World, k: nat, ok: bool, entries: seq<EndpointRecord>): (r: World)
    ensures forall t ::
      Only(w, r, t, {Records}) && RoleFrom(w, r, t) && KeepsLooking(w, r, t) && KeepsMarked(w, r, t) &&
      KeepsCreating(w, r, t)
  {
    if k in w.stateWrites && StateFile.Lists(entries, StateFile.StampAll(w.stateWrites[k])) then
      w.(stateWrites := w.stateWrites - {k}, stateFile := if ok then entries else w.stateFile)
    else w
  }

  function DoWriteNets(w: World, k: nat, ok: bool, entries: seq<NetworkRecord>): (r: World)
    ensures forall t ::
      Only(w, r, t, {Nets}) && RoleFrom(w, r, t) && KeepsLooking(w, r, t) && KeepsMarked(w, r, t) &&
      KeepsCreating(w, r, t)
  {
    if k in w.netWrites && StateFile.ListsNets(entries, w.netWrites[k]) then
      w.(netWrites := w.netWrites - {k}, netFile := if ok then entries else w.netFile)
    else w
  }

  function DoCreateNetwork(w: World, net: NetworkId, opts: NetOptions): (r: World)
    ensures forall t ::
      Only(w, r, t, {Nets}) && RoleFrom(w, r, t) && KeepsLooking(w, r, t) && KeepsMarked(w, r, t) &&
      KeepsCreating(w, r, t)
  {
    SaveNets(w, AddNetwork(w.tables, NetworkRecordOf(net, opts)))
  }

  function DoDeleteNetwork(w: World, net: NetworkId): (r: World)
    ensures forall t ::
      Only(w, r, t, {Nets}) && RoleFrom(w, r, t) && KeepsLooking(w, r, t) && KeepsMarked(w, r, t) &&
      KeepsCreating(w, r, t)
  {
    if net in w.tables.networks then SaveNets(w, RemoveNetwork(w.tables, net)) else w
  }

  /** Restore's snapshot: the records of the table in some order. */
  predicate IsSnapshot(w: World, todo: seq<EndpointRecord>) {
    |todo| == |w.tables.records| && StateFile.Lists(todo, w.tables.records)
  }

  function DoBeginRestore(w: World, t: Tid, todo: seq<EndpointRecord>): (r: World)
    ensures Only(w, r, t, {})
    ensures RoleFrom(w, r, t) || (Started(w, r, t, Restoring(todo, Next)) && IsSnapshot(w, todo))
    ensures KeepsCreating(w, r, t)
    ensures KeepsMarked(w, r, t)
    ensures KeepsLooking(w, r, t)
    ensures KeepsRestoring(w, r, t)
    ensures Moves(w, r, t)
  {
    if IsSnapshot(w, todo) then DoBegin(w, t, Restoring(todo, Next)) else w
  }

  predicate Begins(step: Step) {
    step.BeginCreate? || step.BeginJoin? || step.BeginLeave? || step.BeginDelete? || step.BeginRestore?
  }

  function FirstRole(step: Step): Role
    requires Begins(step)
  {
    match step
    case BeginCreate(_, net, ep) => Resolving(ForCreate(net, ep), AskCache)
    case BeginJoin(_, net, ep, sandbox) => Resolving(ForJoin(net, ep, sandbox), AskCache)
    case BeginLeave(_, ep) => Leaving(ep, Entering)
    case BeginDelete(_, ep) => Deleting(ep)
    case BeginRestore(_, todo) => Restoring(todo, Next)
  }

  function Apply(w: World, step: Step): World {
    match step
    case BeginCreate(t, _, _) => DoBegin(w, t, FirstRole(step))
    case BeginJoin(t, _, _, _) => DoBegin(w, t, FirstRole(step))
    case BeginLeave(t, _) => DoBegin(w, t, FirstRole(step))
    case BeginDelete(t, _) => DoBegin(w, t, FirstRole(step))
    case BeginRestore(t, todo) => DoBeginRestore(w, t, todo)
    case LookInCache(t) => DoLookInCache(w, t)
    case LookInDocker(t, net, answer) => DoLookInDocker(w, t, net, answer)
    case LookInRecords(t, pick) => DoLookInRecords(w, t, pick)
    case LinkAdded(t) => DoLinkAdded(w, t)
    case IndexRead(t, index) => DoIndexRead(w, t, index)
    case GotV4(t, ip, gateway) => DoGotV4(w, t, ip, gateway)
    case GotV6(t, ip) => DoGotV6(w, t, ip)
    case CreateFails(t) => DoCreateFails(w, t)
    case CreateUndone(t) => DoCreateUndone(w, t)
    case TakeHint(t) => DoTakeHint(w, t)
    case RoutesFail(t) => DoRoutesFail(w, t)
    case Persist(t) => DoPersist(w, t)
    case RegisterJoin(t) => DoRegisterJoin(w, t)
    case OpenNs(t, m, ok) => DoOpenNs(w, t, m, ok)
    case OpenNl(t, ok) => DoOpenNl(w, t, ok)
    case StartClients(t, ok) => DoStartClients(w, t, ok)
    case CommitJoinStep(t, hostname) => DoCommitJoin(w, t, hostname)
    case StopHeld(t) => DoStopHeld(w, t)
    case NameEntry(t) => DoNameEntry(w, t)
    case ExitJoin(t) => DoExitJoin(w, t)
    case EnterLeaveStep(t) => DoEnterLeave(w, t)
    case FinishLeave(t) => DoFinishLeave(w, t)
    case FinishDelete(t) => DoFinishDelete(w, t)
    case RestoreNext(t) => DoRestoreNext(w, t)
    case RestoreCheck(t) => DoRestoreCheck(w, t)
    case CommitRestoreStep(t) => DoCommitRestore(w, t)
    case RestoreRetry(t) => DoRestoreRetry(w, t)
    case RestoreDrop(t) => DoRestoreDrop(w, t)
    case RestoreCancelled(t) => DoRestoreCancelled(w, t)
    case CreateNetwork(net, opts) => DoCreateNetwork(w, net, opts)
    case DeleteNetwork(net) => DoDeleteNetwork(w, net)
    case WriteState(k, ok, entries) => DoWriteState(w, k, ok, entries)
    case WriteNets(k, ok, entries) => DoWriteNets(w, k, ok, entries)
    case Crash => Boot(w.stateFile, w.netFile)
  }

  /** What each step may touch. */
  function Touched(step: Step): set<Part> {
    match step
    case OpenNs(_, _, _) | OpenNl(_, _) | StartClients(_, _) | StopHeld(_) => {Owners}
    case CommitJoinStep(_, _) | CommitRestoreStep(_) | EnterLeaveStep(_) => {Owners, Marks}
    case IndexRead(_, _) | GotV4(_, _, _) | GotV6(_, _) | CreateUndone(_) | TakeHint(_) => {Hints}
    case Persist(_) | NameEntry(_) | WriteState(_, _, _) => {Records}
    case FinishLeave(_) | FinishDelete(_) | RestoreDrop(_) => {Records, Marks}
    case RegisterJoin(_) | ExitJoin(_) => {Marks}
    case LookInDocker(_, _, _) | CreateNetwork(_, _) | DeleteNetwork(_) | WriteNets(_, _, _) => {Nets}
    case _ => {}
  }

  /** The steps of CreateEndpoint after its options are known. */
  predicate ByCreate(step: Step) {
    step.LinkAdded? || step.IndexRead? || step.GotV4? || step.GotV6? || step.CreateFails? || step.CreateUndone?
  }

  function Actor(step: Step): Tid {
    match step
    case CreateNetwork(_, _) | DeleteNetwork(_) | WriteState(_, _, _) | WriteNets(_, _, _) | Crash => 0
    case _ => step.t
  }

  /** The steps of Restore, and those it shares with Join's background thread. */
  predicate ByRestore(step: Step) {
    step.RestoreNext? || step.RestoreCheck? || step.OpenNs? || step.OpenNl? || step.StartClients? ||
    step.CommitRestoreStep? || step.StopHeld? || step.RestoreRetry? || step.RestoreDrop? || step.RestoreCancelled?
  }

  /** A step of a thread, as opposed to a save, a crash, or a handler that has only one step. */
  predicate Threaded(step: Step) {
    !step.CreateNetwork? && !step.DeleteNetwork? && !step.WriteState? && !step.WriteNets? && !step.Crash?
  }

  /** The frame of every step of a living process. */
  lemma StepFrame(w: World, step: Step)
    requires !step.Crash?
    ensures Only(w, Apply(w, step), Actor(step), Touched(step))
    ensures RoleFrom(w, Apply(w, step), Actor(step)) ||
            (Begins(step) && Started(w, Apply(w, step), Actor(step), FirstRole(step)) &&
             (step.BeginRestore? ==> IsSnapshot(w, step.todo)))
    ensures !step.LookInCache? && !step.LookInDocker? && !step.LookInRecords? ==>
      KeepsLooking(w, Apply(w, step), Actor(step))
    ensures !step.ExitJoin? && !step.FinishLeave? ==> KeepsMarked(w, Apply(w, step), Actor(step))
    ensures !ByCreate(step) ==> KeepsCreating(w, Apply(w, step), Actor(step))
  {
    hide Only, RoleFrom, Started, IsSnapshot, KeepsLooking, KeepsMarked, KeepsCreating, KeepsRestoring, Moves, DoBegin,
      DoBeginRestore, DoRoutesFail, DoWriteState, DoWriteNets, DoCreateNetwork, DoDeleteNetwork, DoLookInCache,
      DoLookInDocker, DoLookInRecords, DoLinkAdded, DoIndexRead, DoGotV4, DoGotV6, DoCreateFails,
      DoCreateUndone, DoTakeHint, DoPersist, DoRegisterJoin, DoOpenNs, DoOpenNl, DoStartClients, DoCommitJoin,
      DoStopHeld, DoNameEntry, DoExitJoin, DoEnterLeave, DoFinishLeave, DoFinishDelete, DoRestoreNext,
      DoRestoreCheck, DoCommitRestore, DoRestoreRetry, DoRestoreDrop, DoRestoreCancelled;
  }

  lemma MoveFrame(w: World, step: Step)
    requires Threaded(step)
    ensures Moves(w, Apply(w, step), Actor(step))
    ensures !ByRestore(step) ==> KeepsRestoring(w, Apply(w, step), Actor(step))
  {
    hide Only, RoleFrom, Started, IsSnapshot, KeepsLooking, KeepsMarked, KeepsCreating, KeepsRestoring, Moves, DoBegin,
      DoBeginRestore, DoRoutesFail, DoWriteState, DoWriteNets, DoCreateNetwork, DoDeleteNetwork, DoLookInCache,
      DoLookInDocker, DoLookInRecords, DoLinkAdded, DoIndexRead, DoGotV4, DoGotV6, DoCreateFails,
      DoCreateUndone, DoTakeHint, DoPersist, DoRegisterJoin, DoOpenNs, DoOpenNl, DoStartClients, DoCommitJoin,
      DoStopHeld, DoNameEntry, DoExitJoin, DoEnterLeave, DoFinishLeave, DoFinishDelete, DoRestoreNext,
      DoRestoreCheck, DoCommitRestore, DoRestoreRetry, DoRestoreDrop, DoRestoreCancelled;
  }

  // -------------------------------------------------------------------------
  // What a step does to the endpoint records
  // -------------------------------------------------------------------------

  /** The endpoint whose record the step removes, if any. */
  predicate Removes(w: World, step: Step) {
    match step
    case FinishLeave(t) => CanFinishLeave(w, t)
    case FinishDelete(t) => CanFinishDelete(w, t)
    case RestoreDrop(t) => CanDrop(w, t)
    case _ => false
  }

  function RemovedEndpoint(w: World, step: Step): EndpointId
    requires Removes(w, step)
  {
    match step
    case FinishLeave(t) => w.roles[t].ep
    case FinishDelete(t) => w.roles[t].ep
    case RestoreDrop(t) => w.roles[t].todo[0].endpointID
  }

  /** Docker answers a lookup with options, which fill the cache. */
  predicate DockerTells(w: World, step: Step) {
    step.LookInDocker? && step.answer.Options? &&
    Free(w, step.t) && w.roles[step.t].Resolving? && w.roles[step.t].at == AskDocker &&
    w.roles[step.t].req.net == step.net
  }

  predicate Adds(w: World, step: Step) {
    step.Persist? && CanPersist(w, step.t)
  }

  predicate Names(w: World, step: Step) {
    step.NameEntry? && Free(w, step.t) && w.roles[step.t].Background? && w.roles[step.t].back.Naming?
  }

  function RecordsAfter(w: World, step: Step): StateTable {
    if Adds(w, step) then
      var e := PersistedRecord(w.roles[step.t]);
      w.tables.records[e.endpointID := e]
    else if Names(w, step) then
      SetHostname(w.tables, w.roles[step.t].req.ep, w.roles[step.t].back.hostname).records
    else if Removes(w, step) then w.tables.records - {RemovedEndpoint(w, step)}
    else w.tables.records
  }

  /** The step queues a save of the records. */
  predicate Snapshots(w: World, step: Step) {
    Adds(w, step) || Names(w, step) || (Removes(w, step) && RemovedEndpoint(w, step) in w.tables.records)
  }

  ghost predicate RecordEffect(w: World, w': World, step: Step) {
    w'.tables.records == RecordsAfter(w, step) && w'.stateFile == w.stateFile &&
    w'.stateWrites == (if Snapshots(w, step) then w.stateWrites[w.ticket := w'.tables.records] else w.stateWrites) &&
    (Snapshots(w, step) ==> w'.ticket == w.ticket + 1)
  }

  /** Every change of the records is a Join's add, a hostname or a removal, and each of them
      queues a save of exactly the table it leaves. */
  lemma RecordSteps(w: World, step: Step)
    requires !step.Crash? && !step.WriteState?
    ensures RecordEffect(w, Apply(w, step), step)
  {
    hide Apply, RecordEffect;
    match step
    case Persist(t) => PersistEffect(w, t);
    case NameEntry(t) => NameEffect(w, t);
    case FinishLeave(t) => FinishLeaveEffect(w, t);
    case FinishDelete(t) => FinishDeleteEffect(w, t);
    case RestoreDrop(t) => DropEffect(w, t);
    case _ => QuietRecords(w, step);
  }

  lemma PersistEffect(w: World, t: Tid)
    ensures RecordEffect(w, Apply(w, Persist(t)), Persist(t))
  {
    hide Only, RoleFrom, Started, KeepsLooking, KeepsRestoring, Moves, KeepsMarked, KeepsCreating;
  }

  lemma NameEffect(w: World, t: Tid)
    ensures RecordEffect(w, Apply(w, NameEntry(t)), NameEntry(t))
  {
    hide Only, RoleFrom, Started, KeepsLooking, KeepsRestoring, Moves, KeepsMarked, KeepsCreating;
  }

  lemma FinishLeaveEffect(w: World, t: Tid)
    ensures RecordEffect(w, Apply(w, FinishLeave(t)), FinishLeave(t))
  {
    hide Only, RoleFrom, Started, KeepsLooking, KeepsRestoring, Moves, KeepsMarked, KeepsCreating;
  }

  lemma FinishDeleteEffect(w: World, t: Tid)
    ensures RecordEffect(w, Apply(w, FinishDelete(t)), FinishDelete(t))
  {
    hide Only, RoleFrom, Started, KeepsLooking, KeepsRestoring, Moves, KeepsMarked, KeepsCreating;
  }

  lemma DropEffect(w: World, t: Tid)
    ensures RecordEffect(w, Apply(w, RestoreDrop(t)), RestoreDrop(t))
  {
    hide Only, RoleFrom, Started, KeepsLooking, KeepsRestoring, Moves, KeepsMarked, KeepsCreating;
  }

  lemma QuietRecords(w: World, step: Step)
    requires !step.Crash? && !step.WriteState? && Records !in Touched(step)
    ensures RecordEffect(w, Apply(w, step), step)
  {
    hide Apply, Adds, Names, Removes, RoleFrom, Started, KeepsLooking, KeepsRestoring, Moves, KeepsMarked,
      KeepsCreating;
    QuietStep(w, step);
    StepFrame(w, step);
  }

  lemma QuietStep(w: World, step: Step)
    requires Records !in Touched(step)
    ensures !Adds(w, step) && !Names(w, step) && !Removes(w, step)
  {
  }

  /** The state after running `steps` from `w`. */
  function After(w: World, steps: seq<Step>): World {
    if steps == [] then w
    else Apply(After(w, steps[..|steps| - 1]), steps[|steps| - 1])
  }

  lemma AfterSnoc(w: World, steps: seq<Step>, step: Step)
    ensures After(w, steps + [step]) == Apply(After(w, steps), step)
  {
    assert (steps + [step])[..|steps|] == steps;
  }

  /** `p` holds of step `i` of the run, in the state it meets. */
  function At(w: World, steps: seq<Step>, p: (World, Step) -> bool): nat -> bool {
    (i: nat) => i < |steps| && p(After(w, steps[..i]), steps[i])
  }

  ghost predicate NoCrash(steps: seq<Step>) {
    forall i | 0 <= i < |steps| :: !steps[i].Crash?
  }
}
