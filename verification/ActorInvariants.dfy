/** What every step of the actor protocol keeps. */
module ActorInvariants {
  import opened Updates
  import opened ActorProtocol

  // ---------------------------------------------------------- one activation

  /** Memory is the result of the folded calls, each starting where the previous one ended. */
  ghost predicate Chained(m: Memory, cs: seq<Call>, m': Memory)
    decreases |cs|
  {
    if cs == [] then m == m'
    else
      var last := cs[|cs| - 1];
      Chained(m, cs[..|cs| - 1], last.before) && last.after == m'
  }

  ghost predicate FetchedOk(log: Log, agent: Text, fetched: seq<Update>, k: nat) {
    && k <= |fetched|
    && Ordered(fetched)
    && (forall j :: 0 <= j < |fetched| ==> Stored(log, fetched[j]) && fetched[j].toAgent == agent)
    && (forall j :: 0 <= j < k ==> IsProcessed(log, fetched[j].id))
  }

  ghost predicate WorkOk(log: Log, a: Act, u: Update, w: Work) {
    && Stored(log, u) && u.toAgent == a.agent && u.id !in a.skip
    && match w
       case InBacklog(_, fetched, k) => FetchedOk(log, a.agent, fetched, k) && k < |fetched| && fetched[k] == u
       case InChannel(_) => !a.deferred
  }

  ghost predicate PcOk(log: Log, calls: set<Call>, i: nat, a: Act) {
    match a.pc
    case Loading => a.folded == [] && a.skip == {} && !a.deferred
    case Scanning(_, fetched, k) => FetchedOk(log, a.agent, fetched, k)
    case Handling(u, w) => WorkOk(log, a, u, w)
    case Marking(u, next, w) => WorkOk(log, a, u, w) && Call(i, u, a.memory, next) in calls
    case _ => true
  }

  ghost predicate SkipOk(log: Log, a: Act) {
    forall id :: id in a.skip ==> IsProcessed(log, id) && log[id].update.toAgent == a.agent
  }

  ghost predicate FoldOk(calls: set<Call>, i: nat, a: Act) {
    && Chained(a.initial, a.folded, a.memory)
    && (forall p :: 0 <= p < |a.folded| ==>
          a.folded[p] in calls && a.folded[p].act == i && a.folded[p].update.id in a.skip)
    && (forall p, q :: 0 <= p < q < |a.folded| ==> a.folded[p].update.id != a.folded[q].update.id)
  }

  ghost predicate MailOk(log: Log, a: Act) {
    && |a.mailbox| <= |a.received|
    && a.mailbox == a.received[|a.received| - |a.mailbox|..]
    && (forall p :: 0 <= p < |a.received| ==> Stored(log, a.received[p]) && a.received[p].toAgent == a.agent)
  }

  ghost predicate ActOk(log: Log, calls: set<Call>, i: nat, a: Act) {
    && SkipOk(log, a)
    && FoldOk(calls, i, a)
    && MailOk(log, a)
    && PcOk(log, calls, i, a)
    && (a.cancelled ==> a.evicted)
    && (a.saved ==> a.pc.Exiting? || a.pc.Gone?)
  }

  // ------------------------------------------------------------- the registry

  predicate Running(a: Act) {
    !a.pc.Exiting? && !a.pc.Gone?
  }

  /** Single activation: a running, non-evicted activation is the one registered for its agent. */
  ghost predicate RegistryOk(c: Config, s: State) {
    && (forall g :: g in s.resident ==>
          s.resident[g] < |s.acts| && s.acts[s.resident[g]].agent == g && !s.acts[s.resident[g]].pc.Gone?)
    && (forall i :: 0 <= i < |s.acts| && Running(s.acts[i]) && !s.acts[i].evicted ==> Registered(s, i))
    && (c.maxResident > 0 ==> |s.resident| <= c.maxResident)
  }

  // ----------------------------------------------------------------- delivery

  predicate At(s: State, i: nat, p: nat, id: Text) {
    i < |s.acts| && p < |s.acts[i].received| && s.acts[i].received[p].id == id
  }

  /** An id sits in at most one place: in flight, parked on a channel, or in one
      position of one activation's receive history. */
  ghost predicate DeliveryOk(s: State) {
    && (forall id :: id in s.inflight ==> id in s.log && id !in s.waiting)
    && (forall id :: id in s.waiting ==>
          id in s.log && s.waiting[id] < |s.acts| && s.acts[s.waiting[id]].agent == s.log[id].update.toAgent)
    && (forall i, p, id :: At(s, i, p, id) ==> id !in s.inflight && id !in s.waiting)
    && (forall i, p, j, q, id :: At(s, i, p, id) && At(s, j, q, id) ==> i == j && p == q)
  }

  // ----------------------------------------------------------------- coverage

  /** The activation will query the log again before it can wait for mail. */
  predicate WillQuery(a: Act) {
    match a.pc
    case Loading => true
    case Querying(_) => true
    case Scanning(_, _, _) => true
    case Handling(_, w) => w != InChannel(FromColdDrain)
    case Marking(_, _, w) => w != InChannel(FromColdDrain)
    case WarmDraining => !a.deferred
    case _ => false
  }

  predicate ColdPhase(a: Act) {
    match a.pc
    case ColdDraining => true
    case Handling(_, w) => w == InChannel(FromColdDrain)
    case Marking(_, _, w) => w == InChannel(FromColdDrain)
    case _ => false
  }

  predicate InHand(a: Act, id: Text) {
    (a.pc.Handling? || a.pc.Marking?) && a.pc.u.id == id
  }

  predicate InMail(a: Act, id: Text) {
    exists k :: 0 <= k < |a.mailbox| && a.mailbox[k].id == id
  }

  /** Why a registered activation still answers for a pending row of its agent. */
  predicate Covers(a: Act, id: Text) {
    || a.evicted || a.pc.Exiting?
    || WillQuery(a) || a.deferred
    || InHand(a, id) || InMail(a, id)
    || (id in a.overflow && (a.mailbox != [] || ColdPhase(a)))
    || id in a.missed
  }

  ghost predicate CoverOk(s: State) {
    forall g, id :: Pending(s.log, g, id) && id !in s.inflight && id !in s.waiting && id !in s.owed ==>
      g in s.resident && s.resident[g] < |s.acts| && Covers(s.acts[s.resident[g]], id)
  }

  // ------------------------------------------------------------------ history

  /** A processed row was handled successfully first. */
  ghost predicate HandledOk(s: State) {
    forall id :: IsProcessed(s.log, id) ==> exists k :: k in s.calls && k.update == s.log[id].update
  }

  ghost predicate SavedBy(s: State, g: Text, i: nat)
    requires g in s.snapshots
  {
    i < |s.acts| && s.acts[i].agent == g && s.acts[i].saved && s.acts[i].memory == s.snapshots[g]
  }

  /** Every snapshot is the memory some activation of that agent passivated with. */
  ghost predicate SnapshotsOk(s: State)
  {
    forall g :: g in s.snapshots ==> exists i :: SavedBy(s, g, i)
  }

  ghost predicate ActsOk(s: State) {
    forall i :: 0 <= i < |s.acts| ==> ActOk(s.log, s.calls, i, s.acts[i])
  }

  ghost predicate Inv(c: Config, s: State) {
    && LogOk(s.log)
    && ActsOk(s)
    && RegistryOk(c, s)
    && DeliveryOk(s)
    && CoverOk(s)
    && HandledOk(s)
    && SnapshotsOk(s)
    && s.accepted <= s.log.Keys
  }
}
