/** The durable-actor protocol as a labelled step machine.

    Every region that holds the runtime mutex is one step, and so is every log
    append, log query, handler result and mark. The scheduler, the handler, the
    log's failures, eviction, panics and process crashes are all labels, so one
    sequence of labels is one interleaving. A label that is not enabled leaves
    the state as it is; hence every label sequence denotes a run. */
module ActorProtocol {
  import opened Updates

  // -------------------------------------------------------------------- state

  datatype SendMode = Legacy | NonBlocking | Blocking
  datatype Config = Config(capacity: nat, maxResident: nat, mode: SendMode) {
    // NewRuntime replaces a non-positive mailbox capacity by its default.
    predicate Ok() { 1 <= capacity }
  }

  // A handler call that returned no error: memory before and after.
  datatype Call = Call(act: nat, update: Update, before: Memory, after: Memory)

  // The three call sites of processBacklog and of processOne.
  datatype Site = AtCold | AtWake | AtPostDrain
  datatype Origin = FromColdDrain | FromSelect | FromWarmDrain
  datatype Work =
    | InBacklog(site: Site, fetched: seq<Update>, k: nat)
    | InChannel(origin: Origin)

  datatype Pc =
    | Loading
    | Querying(site: Site)
    | Scanning(site: Site, fetched: seq<Update>, k: nat)
    | Handling(u: Update, work: Work)
    | Marking(u: Update, next: Memory, work: Work)
    | ColdDraining
    | Selecting
    | WarmDraining
    | Exiting
    | Gone

  /** One activation. `received`, `initial`, `folded`, `saved`, `overflow` and
      `missed` are history: no step's effect on the other fields reads them. */
  datatype Act = Act(
    agent: Text,
    pc: Pc,
    mailbox: seq<Update>,
    skip: set<Text>,
    memory: Memory,
    deferred: bool,
    evicted: bool,
    cancelled: bool,
    received: seq<Update>,
    initial: Memory,
    folded: seq<Call>,
    saved: bool,
    overflow: set<Text>,
    missed: set<Text>)

  /** `owed` and `calls` are history: rows that only a later activation reaches,
      and all successful handler calls. `inflight` holds the Sends between
      append and lock; `waiting` the blocking Sends parked on a channel;
      `sweeps` the answers of Sweep queries whose locked half has not run. */
  datatype State = State(
    log: Log,
    snapshots: map<Text, Memory>,
    resident: map<Text, nat>,
    acts: seq<Act>,
    closed: bool,
    ready: bool,
    accepted: set<Text>,
    inflight: set<Text>,
    waiting: map<Text, nat>,
    sweeps: seq<seq<Text>>,
    owed: set<Text>,
    calls: set<Call>)

  function Init(): State {
    State(map[], map[], map[], [], false, false, {}, {}, map[], [], {}, {})
  }

  // ------------------------------------------------------------ one activation

  datatype Event =
    | Load(ok: bool)
    | Query(fetched: seq<Update>)
    | Advance
    | Bail
    | HandleFail
    | HandleDefer
    | HandlePanic
    | Receive
    | ColdEmpty
    | DrainEmpty
    | SeeDone
    | IdleEvicted
    | Cancel

  function Started(agent: Text): Act {
    Act(agent, Loading, [], {}, [], false, false, false, [], [], [], false, {}, {})
  }

  function AfterBacklog(site: Site): Pc {
    match site
    case AtCold => ColdDraining
    case AtWake => WarmDraining
    case AtPostDrain => Selecting
  }

  function AfterOne(origin: Origin): Pc {
    if origin == FromColdDrain then ColdDraining else WarmDraining
  }

  // Where a failed handler or mark leads: processBacklog breaks out of the scan
  // and queries again, processOne returns to its drain loop.
  function AfterFailure(w: Work): Pc {
    match w
    case InBacklog(site, _, _) => Querying(site)
    case InChannel(origin) => AfterOne(origin)
  }

  function Dropped(w: Work, id: Text): set<Text> {
    if w == InChannel(FromColdDrain) then {id} else {}
  }

  function AfterReturn(w: Work): Pc {
    match w
    case InBacklog(site, _, _) => AfterBacklog(site)
    case InChannel(origin) => AfterOne(origin)
  }

  function AfterMark(w: Work): Pc {
    match w
    case InBacklog(site, fetched, k) => Scanning(site, fetched, k + 1)
    case InChannel(origin) => AfterOne(origin)
  }

  /** Steps of processBacklog and processOne, and of the handler they call. The
      query result is part of the label; GoodQuery says it is what the log returns. */
  function WorkStep(snapshots: map<Text, Memory>, a: Act, e: Event): Act {
    match e
    case Load(ok) =>
      if !a.pc.Loading? then a else
      var m := if ok && a.agent in snapshots then snapshots[a.agent] else [];
      a.(pc := Querying(AtCold), memory := m, initial := m)
    case Query(fetched) =>
      if !a.pc.Querying? then a
      else if fetched == [] then
        a.(pc := AfterBacklog(a.pc.site), deferred := false, overflow := {}, missed := {})
      else a.(pc := Scanning(a.pc.site, fetched, 0))
    case Advance =>
      if !a.pc.Scanning? then a
      else if a.pc.k >= |a.pc.fetched| then a.(pc := Querying(a.pc.site))
      else if a.pc.fetched[a.pc.k].id in a.skip then a.(pc := Scanning(a.pc.site, a.pc.fetched, a.pc.k + 1))
      else a.(pc := Handling(a.pc.fetched[a.pc.k], InBacklog(a.pc.site, a.pc.fetched, a.pc.k)))
    case Bail =>
      // ctx.Err() was seen: both functions return without a deferral.
      if !a.cancelled || !(a.pc.Querying? || a.pc.Scanning? || a.pc.Handling?) then a
      else a.(pc := if a.pc.Handling? then AfterReturn(a.pc.work) else AfterBacklog(a.pc.site), deferred := false)
    case HandleFail =>
      if !a.pc.Handling? then a
      else a.(pc := AfterFailure(a.pc.work), missed := a.missed + Dropped(a.pc.work, a.pc.u.id))
    case HandleDefer =>
      if !a.pc.Handling? then a
      else a.(pc := AfterReturn(a.pc.work), deferred := true)
    case HandlePanic =>
      if !a.pc.Handling? then a else a.(pc := Exiting)
    case _ => a
  }

  // Where the loop goes with a received update, in each of its three receives.
  function AfterReceive(a: Act, u: Update): Pc {
    match a.pc
    case ColdDraining =>
      if !a.deferred && u.id !in a.skip then Handling(u, InChannel(FromColdDrain)) else ColdDraining
    case Selecting =>
      if a.deferred then Querying(AtWake)
      else if u.id !in a.skip then Handling(u, InChannel(FromSelect))
      else WarmDraining
    case _ =>
      if !a.deferred && u.id !in a.skip then Handling(u, InChannel(FromWarmDrain)) else WarmDraining
  }

  /** Steps of the drain loops and of the warm select. */
  function LoopStep(a: Act, e: Event): Act {
    match e
    case Receive =>
      if !(a.pc.ColdDraining? || a.pc.Selecting? || a.pc.WarmDraining?) || a.mailbox == [] then a
      else a.(pc := AfterReceive(a, a.mailbox[0]), mailbox := a.mailbox[1..])
    case ColdEmpty =>
      if !a.pc.ColdDraining? || a.mailbox != [] then a
      else a.(pc := Selecting, missed := a.missed + a.overflow, overflow := {})
    case DrainEmpty =>
      if !a.pc.WarmDraining? || a.mailbox != [] then a
      else a.(pc := if a.deferred then Selecting else Querying(AtPostDrain))
    case SeeDone =>
      if a.pc.Selecting? && a.cancelled then a.(pc := Exiting) else a
    case IdleEvicted =>
      if a.pc.Selecting? && a.evicted then a.(pc := Exiting) else a
    case Cancel =>
      // Evict and Stop set evicted under the lock before they cancel.
      if a.evicted then a.(cancelled := true) else a
    case _ => a
  }

  predicate IsLoopEvent(e: Event) {
    e.Receive? || e.ColdEmpty? || e.DrainEmpty? || e.SeeDone? || e.IdleEvicted? || e.Cancel?
  }

  /** A step that touches nothing but the activation itself. */
  function Local(snapshots: map<Text, Memory>, a: Act, e: Event): Act {
    if IsLoopEvent(e) then LoopStep(a, e) else WorkStep(snapshots, a, e)
  }

  predicate GoodQuery(log: Log, a: Act, e: Event) {
    e.Query? ==> IsBacklog(log, a.agent, e.fetched)
  }

  // ------------------------------------------------------------- whole runtime

  datatype Label =
    | DispatchPaused(u: Update)
    | Release
    | SendAppend(u: Update)
    | SendLock(id: Text)
    | BlockedDeliver(id: Text)
    | BlockedTimeout(id: Text)
    | SweepQuery(agents: seq<Text>)
    | SweepLock(k: nat)
    | Evict(agent: Text)
    | Stop
    | Own(i: nat, e: Event)
    | HandleOk(i: nat, next: Memory)
    | MarkOk(i: nat)
    | MarkFail(i: nat, applied: bool)
    | IdleSave(i: nat)
    | Deregister(i: nat)
    | Crash

  function RowsOf(log: Log, agent: Text): set<Text> {
    set id | id in log && log[id].update.toAgent == agent
  }

  function AllPending(log: Log): set<Text> {
    set id | id in log && !log[id].processed
  }

  predicate CapReached(c: Config, s: State) {
    c.maxResident > 0 && |s.resident| >= c.maxResident
  }

  /** activateLocked, when the cap allows it. */
  function Activate(s: State, agent: Text): State {
    s.(acts := s.acts + [Started(agent)],
       resident := s.resident[agent := |s.acts|],
       owed := s.owed - RowsOf(s.log, agent))
  }

  function Push(a: Act, u: Update): Act {
    a.(mailbox := a.mailbox + [u], received := a.received + [u])
  }

  function SetAct(s: State, i: nat, a: Act): State
    requires i < |s.acts|
  {
    s.(acts := s.acts[i := a])
  }

  predicate Live(s: State, agent: Text) {
    agent in s.resident && s.resident[agent] < |s.acts| && !s.acts[s.resident[agent]].evicted
  }

  /** Steering a warm actor: into its channel if there is room. The two
      non-blocking modes differ only in what Send returns. */
  function Steer(c: Config, s: State, i: nat, u: Update): State
    requires i < |s.acts|
  {
    var a := s.acts[i];
    if c.mode == Blocking then s.(waiting := s.waiting[u.id := i])
    else if |a.mailbox| < c.capacity then SetAct(s, i, Push(a, u))
    else SetAct(s, i, a.(overflow := a.overflow + {u.id}))
  }

  /** The locked half of Send for an update that this call appended. */
  function Deliver(c: Config, s0: State, u: Update): State {
    var s := s0.(inflight := s0.inflight - {u.id});
    if s.closed then s.(owed := s.owed + {u.id})
    else if !Live(s, u.toAgent) then
      if CapReached(c, s) then s.(owed := s.owed + {u.id}) else Activate(s, u.toAgent)
    else Steer(c, s, s.resident[u.toAgent], u)
  }

  /** The locked half of Sweep: it stops at the first refused activation. */
  function SweepAll(c: Config, s: State, agents: seq<Text>): State
    decreases |agents|
  {
    if agents == [] then s
    else if agents[0] in s.resident then SweepAll(c, s, agents[1..])
    else if CapReached(c, s) then s
    else SweepAll(c, Activate(s, agents[0]), agents[1..])
  }

  predicate Registered(s: State, i: nat) {
    i < |s.acts| && s.acts[i].agent in s.resident && s.resident[s.acts[i].agent] == i
  }

  function StopAct(s: State, i: nat): Act
    requires i < |s.acts|
  {
    if Registered(s, i) then s.acts[i].(evicted := true, cancelled := true) else s.acts[i]
  }

  /** Pending rows of an agent that no Send is still delivering. */
  function Unspoken(s: State, agent: Text): set<Text> {
    PendingIds(s.log, agent) - s.inflight - s.waiting.Keys
  }

  function Unregister(s: State, i: nat): State
    requires i < |s.acts|
  {
    var a := s.acts[i];
    if Registered(s, i) then
      s.(resident := s.resident - {a.agent}, owed := s.owed + Unspoken(s, a.agent))
    else s
  }

  function Mark(s: State, i: nat, applied: bool): State
    requires i < |s.acts| && s.acts[i].pc.Marking?
  {
    if applied then s.(log := MarkProcessed(s.log, s.acts[i].agent, s.acts[i].pc.u.id)) else s
  }

  /** The answer of SELECT DISTINCT to_agent_id ... WHERE processed_at IS NULL. */
  predicate IsBacklogged(log: Log, agents: seq<Text>) {
    && (forall g :: g in agents ==> exists id :: id in log && Pending(log, g, id))
    && (forall id :: id in log && !log[id].processed ==> log[id].update.toAgent in agents)
  }

  predicate Enabled(s: State, l: Label) {
    match l
    case DispatchPaused(u) => !s.ready && u.id != [] && u.toAgent != []
    case SendAppend(u) => u.id != [] && u.toAgent != []
    case SendLock(id) => id in s.inflight && id in s.log
    case BlockedDeliver(id) => id in s.waiting && id in s.log && s.waiting[id] < |s.acts|
    case BlockedTimeout(id) => id in s.waiting
    case SweepQuery(agents) => IsBacklogged(s.log, agents)
    case SweepLock(k) => k < |s.sweeps|
    case Evict(agent) => agent in s.resident && s.resident[agent] < |s.acts|
    case Own(i, e) => i < |s.acts| && GoodQuery(s.log, s.acts[i], e)
    case HandleOk(i, _) => i < |s.acts| && s.acts[i].pc.Handling?
    case MarkOk(i) => i < |s.acts| && s.acts[i].pc.Marking?
    case MarkFail(i, _) => i < |s.acts| && s.acts[i].pc.Marking?
    case IdleSave(i) =>
      i < |s.acts| && s.acts[i].pc.Selecting? && s.acts[i].mailbox == [] && !s.acts[i].evicted
    case Deregister(i) => i < |s.acts| && s.acts[i].pc.Exiting?
    case _ => true
  }

  function HandleOkAct(a: Act, next: Memory): Act
    requires a.pc.Handling?
  {
    a.(pc := Marking(a.pc.u, next, a.pc.work))
  }

  function MarkOkAct(i: nat, a: Act): Act
    requires a.pc.Marking?
  {
    a.(pc := AfterMark(a.pc.work),
       memory := a.pc.next,
       skip := a.skip + {a.pc.u.id},
       folded := a.folded + [Call(i, a.pc.u, a.memory, a.pc.next)])
  }

  function MarkFailAct(a: Act, applied: bool): Act
    requires a.pc.Marking?
  {
    a.(pc := AfterFailure(a.pc.work),
       missed := a.missed + if applied then {} else Dropped(a.pc.work, a.pc.u.id))
  }

  function Paused(s: State, u: Update): State {
    if u.id in s.log then s.(accepted := s.accepted + {u.id})
    else s.(log := Append(s.log, u), accepted := s.accepted + {u.id}, owed := s.owed + {u.id})
  }

  function Appended(s: State, u: Update): State {
    if u.id in s.log then s else s.(log := Append(s.log, u), inflight := s.inflight + {u.id})
  }

  /** A parked Send finds room in the channel it took under the lock, registered or not. */
  function Unpark(c: Config, s: State, id: Text): State
    requires id in s.waiting && id in s.log && s.waiting[id] < |s.acts|
  {
    var i := s.waiting[id];
    if |s.acts[i].mailbox| >= c.capacity then s
    else
      s.(acts := s.acts[i := Push(s.acts[i], s.log[id].update)],
         waiting := s.waiting - {id},
         owed := s.owed + if Registered(s, i) then {} else {id})
  }

  function Swept(c: Config, s: State, k: nat): State
    requires k < |s.sweeps|
  {
    var t := s.(sweeps := RemoveAt(s.sweeps, k));
    if s.closed then t else SweepAll(c, t, s.sweeps[k])
  }

  function RemoveAt(qs: seq<seq<Text>>, k: nat): seq<seq<Text>>
    requires k < |qs|
  {
    qs[..k] + qs[k + 1..]
  }

  function Stopped(s: State): State {
    s.(closed := true, acts := seq(|s.acts|, i requires 0 <= i < |s.acts| => StopAct(s, i)))
  }

  function Handled(s: State, i: nat, next: Memory): State
    requires i < |s.acts| && s.acts[i].pc.Handling?
  {
    var a := s.acts[i];
    s.(acts := s.acts[i := HandleOkAct(a, next)], calls := s.calls + {Call(i, a.pc.u, a.memory, next)})
  }

  /** SaveSnapshot succeeded and the map entry is deleted, under one lock. A
      failed save leaves everything as it is. */
  function Passivate(s: State, i: nat): State
    requires i < |s.acts|
  {
    var a := s.acts[i];
    s.(acts := s.acts[i := a.(pc := Exiting, saved := true)],
       snapshots := s.snapshots[a.agent := a.memory],
       resident := s.resident - {a.agent},
       owed := s.owed + a.missed + if a.deferred then Unspoken(s, a.agent) else {})
  }

  /** The process dies: the database remembers, nothing else does. */
  function Crashed(s: State): State {
    s.(acts := seq(|s.acts|, i requires 0 <= i < |s.acts| => s.acts[i].(pc := Gone)),
       resident := map[], inflight := {}, waiting := map[], sweeps := [],
       closed := false, ready := false, owed := AllPending(s.log))
  }

  function Do(c: Config, s: State, l: Label): State
    requires Enabled(s, l)
  {
    match l
    case DispatchPaused(u) => Paused(s, u)
    case Release => s.(ready := true)
    case SendAppend(u) => Appended(s, u)
    case SendLock(id) => Deliver(c, s, s.log[id].update)
    case BlockedDeliver(id) => Unpark(c, s, id)
    case BlockedTimeout(id) => s.(waiting := s.waiting - {id}, owed := s.owed + {id})
    case SweepQuery(agents) => s.(sweeps := s.sweeps + [agents])
    case SweepLock(k) => Swept(c, s, k)
    case Evict(agent) => SetAct(s, s.resident[agent], s.acts[s.resident[agent]].(evicted := true))
    case Stop => Stopped(s)
    case Own(i, e) => SetAct(s, i, Local(s.snapshots, s.acts[i], e))
    case HandleOk(i, next) => Handled(s, i, next)
    case MarkOk(i) => SetAct(Mark(s, i, true), i, MarkOkAct(i, s.acts[i]))
    case MarkFail(i, applied) => SetAct(Mark(s, i, applied), i, MarkFailAct(s.acts[i], applied))
    case IdleSave(i) => Passivate(s, i)
    case Deregister(i) => SetAct(Unregister(s, i), i, s.acts[i].(pc := Gone))
    case Crash => Crashed(s)
  }

  function Step(c: Config, s: State, l: Label): State {
    if Enabled(s, l) then Do(c, s, l) else s
  }

  function Exec(c: Config, s: State, ls: seq<Label>): State
    decreases |ls|
  {
    if ls == [] then s else Step(c, Exec(c, s, ls[..|ls| - 1]), ls[|ls| - 1])
  }
}
