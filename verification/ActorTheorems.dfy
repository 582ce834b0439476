/** What the actor runtime guarantees over every interleaving. */
module ActorTheorems {
  import opened Updates
  import opened ActorProtocol
  import opened ActorFrames
  import opened ActorInvariants
  import opened ActorStepProofs
  import opened ActorGlobalProofs

  // -------------------------------------------------------- single activation

  /** At most one running, non-evicted activation per agent, and it is the
      registered one; the map respects a positive cap. */
  lemma SingleActivation(c: Config, ls: seq<Label>)
    requires c.Ok()
    ensures var s := Exec(c, Init(), ls);
            && (forall i :: 0 <= i < |s.acts| && Running(s.acts[i]) && !s.acts[i].evicted ==> Registered(s, i))
            && (forall i, j :: 0 <= i < |s.acts| && Running(s.acts[i]) && !s.acts[i].evicted ==>
                  0 <= j < |s.acts| && Running(s.acts[j]) && !s.acts[j].evicted ==>
                    s.acts[i].agent == s.acts[j].agent ==> i == j)
            && (c.maxResident > 0 ==> |s.resident| <= c.maxResident)
  {
    hide Exec, ActsOk, DeliveryOk, CoverOk, HandledOk, SnapshotsOk;
    ReachableInv(c, ls);
  }

  /** Passivation deletes by agent id and deregistration by identity; neither
      ever removes another activation's entry. */
  lemma LeavingSparesOthers(c: Config, ls: seq<Label>, i: nat, l: Label, g: Text)
    requires c.Ok() && (l == IdleSave(i) || l == Deregister(i))
    requires g in Exec(c, Init(), ls).resident && Exec(c, Init(), ls).resident[g] != i
    ensures var s := Exec(c, Init(), ls);
            g in Step(c, s, l).resident && Step(c, s, l).resident[g] == s.resident[g]
  {
    hide Exec, ActsOk, DeliveryOk, CoverOk, HandledOk, SnapshotsOk;
    ReachableInv(c, ls);
    var s := Exec(c, Init(), ls);
    if Enabled(s, l) && l.IdleSave? {
      assert Registered(s, i);
    }
  }

  // ------------------------------------------------------- skip set and order

  /** Skipping never hides work: every skipped id is processed in the log. */
  lemma SkipSetSound(c: Config, ls: seq<Label>, i: nat, id: Text)
    requires c.Ok() && i < |Exec(c, Init(), ls).acts| && id in Exec(c, Init(), ls).acts[i].skip
    ensures IsProcessed(Exec(c, Init(), ls).log, id)
  {
    hide Exec, RegistryOk, DeliveryOk, CoverOk, HandledOk, SnapshotsOk, FoldOk, MailOk, PcOk;
    ReachableInv(c, ls);
    var s := Exec(c, Init(), ls);
    assert ActOk(s.log, s.calls, i, s.acts[i]);
  }

  /** Inside processBacklog the handler only sees a row once every row that
      precedes it in the fetched backlog is processed. */
  lemma HeadOfLine(c: Config, ls: seq<Label>, i: nat, v: Update)
    requires c.Ok() && i < |Exec(c, Init(), ls).acts|
    requires var pc := Exec(c, Init(), ls).acts[i].pc;
             pc.Handling? && pc.work.InBacklog? && v in pc.work.fetched && Precedes(v, pc.u)
    ensures IsProcessed(Exec(c, Init(), ls).log, v.id)
  {
    hide Exec, RegistryOk, DeliveryOk, CoverOk, HandledOk, SnapshotsOk, FoldOk, MailOk, SkipOk;
    ReachableInv(c, ls);
    var s := Exec(c, Init(), ls);
    assert ActOk(s.log, s.calls, i, s.acts[i]);
    var w := s.acts[i].pc.work;
    var j :| 0 <= j < |w.fetched| && w.fetched[j] == v;
    if w.k <= j {
      if w.k < j {
        PrecedesTransitive(v, w.fetched[w.k], v);
      }
      PrecedesIrreflexive(v);
    }
  }

  // ------------------------------------------- at least once, at most once

  /** A row is marked only after a successful handler call on it. */
  lemma MarkedAfterHandled(c: Config, ls: seq<Label>, id: Text)
    requires c.Ok() && IsProcessed(Exec(c, Init(), ls).log, id)
    ensures exists k :: k in Exec(c, Init(), ls).calls && k.update == Exec(c, Init(), ls).log[id].update
  {
    hide Exec, ActsOk, RegistryOk, DeliveryOk, CoverOk, SnapshotsOk;
    ReachableInv(c, ls);
  }

  /** An id enters at most one mailbox, once, over the whole run. */
  lemma DeliveredOnce(c: Config, ls: seq<Label>, i: nat, p: nat, j: nat, q: nat, id: Text)
    requires c.Ok() && At(Exec(c, Init(), ls), i, p, id) && At(Exec(c, Init(), ls), j, q, id)
    ensures i == j && p == q
  {
    hide Exec, ActsOk, RegistryOk, CoverOk, HandledOk, SnapshotsOk;
    ReachableInv(c, ls);
  }

  /** One activation folds no id twice, and its memory is the fold. */
  lemma FoldedOnce(c: Config, ls: seq<Label>, i: nat)
    requires c.Ok() && i < |Exec(c, Init(), ls).acts|
    ensures var s := Exec(c, Init(), ls); var a := s.acts[i];
            && Chained(a.initial, a.folded, a.memory)
            && (forall p :: 0 <= p < |a.folded| ==> a.folded[p] in s.calls && a.folded[p].act == i)
            && (forall p, q :: 0 <= p < q < |a.folded| ==> a.folded[p].update.id != a.folded[q].update.id)
  {
    hide Exec, RegistryOk, DeliveryOk, CoverOk, HandledOk, SnapshotsOk, SkipOk, MailOk, PcOk, Chained;
    ReachableInv(c, ls);
    var s := Exec(c, Init(), ls);
    assert ActOk(s.log, s.calls, i, s.acts[i]);
  }

  /** Every stored snapshot is the fold of one activation's incorporated calls
      over the memory that activation loaded. */
  lemma SnapshotIsFold(c: Config, ls: seq<Label>, g: Text)
    requires c.Ok() && g in Exec(c, Init(), ls).snapshots
    ensures var s := Exec(c, Init(), ls);
            exists i: nat :: SavedBy(s, g, i) && Chained(s.acts[i].initial, s.acts[i].folded, s.snapshots[g])
  {
    hide Exec, ActsOk, RegistryOk, DeliveryOk, CoverOk, HandledOk, Chained;
    ReachableInv(c, ls);
    var s := Exec(c, Init(), ls);
    var i: nat :| SavedBy(s, g, i);
    FoldedOnce(c, ls, i);
  }

  // ------------------------------------------------------------ stranded wakes

  /** Every interleaving, with crashes, evictions, panics and failures: a pending
      row is in flight, parked, owed to a later activation, or its agent is
      resident with a reason to reach it. */
  lemma PendingIsCovered(c: Config, ls: seq<Label>, g: Text, id: Text)
    requires c.Ok() && Pending(Exec(c, Init(), ls).log, g, id)
    ensures var s := Exec(c, Init(), ls);
            || id in s.inflight || id in s.waiting || id in s.owed
            || (g in s.resident && s.resident[g] < |s.acts| && Covers(s.acts[s.resident[g]], id))
  {
    hide Exec, ActsOk, RegistryOk, DeliveryOk, HandledOk, SnapshotsOk, Covers;
    ReachableInv(c, ls);
  }

  /** The steps that leave a row to a later activation, and no others. */
  ghost predicate Strands(c: Config, s: State, l: Label, id: Text) {
    match l
    case DispatchPaused(u) => u.id == id
    case SendLock(x) => x == id && (s.closed || CapReached(c, s))
    case BlockedDeliver(x) => x == id && id in s.waiting && !Registered(s, s.waiting[id])
    case BlockedTimeout(x) => x == id
    case IdleSave(i) => i < |s.acts| && (id in s.acts[i].missed || s.acts[i].deferred)
    case Deregister(i) => i < |s.acts| && Registered(s, i) && s.acts[i].pc.Exiting?
    case Crash => true
    case _ => false
  }

  lemma DeliverStrands(c: Config, s: State, u: Update, id: Text)
    requires id !in s.owed && id in Deliver(c, s, u).owed
    ensures id == u.id && (s.closed || CapReached(c, s))
  {
    hide Push;
  }

  lemma LeavingStrands(c: Config, s: State, l: Label, id: Text)
    requires (l.IdleSave? || l.Deregister?) && Enabled(s, l) && id !in s.owed && id in Do(c, s, l).owed
    ensures Strands(c, s, l, id)
  {
  }

  lemma UnparkStrands(c: Config, s: State, x: Text, id: Text)
    requires Enabled(s, BlockedDeliver(x)) && id !in s.owed && id in Unpark(c, s, x).owed
    ensures x == id && !Registered(s, s.waiting[x])
  {
  }

  lemma OwedOnlyByStranding(c: Config, s: State, l: Label, id: Text)
    requires LogOk(s.log) && id !in s.owed && id in Step(c, s, l).owed
    ensures Strands(c, s, l, id)
  {
    hide Swept, Local, MarkOkAct, MarkFailAct, HandleOkAct, Deliver, Unpark, Stopped, Passivate, Unregister, Crashed;
    match l
    case SendLock(x) => DeliverStrands(c, s, s.log[x].update, id);
    case BlockedDeliver(x) => UnparkStrands(c, s, x, id);
    case SweepLock(k) => SweptFrame(c, s, k);
    case IdleSave(_) => LeavingStrands(c, s, l, id);
    case Deregister(_) => LeavingStrands(c, s, l, id);
    case Stop => StoppedFrame(s);
    case _ =>
  }

  // ------------------------------------------------------------------ calm runs

  /** No eviction, panic, stop, crash, boot dispatch, cap refusal, deferral or
      blocking mode, and no failure or overflow during a cold drain. */
  ghost predicate Calm(c: Config, s: State, l: Label) {
    match l
    case DispatchPaused(_) => false
    case SendLock(id) =>
      id in s.log ==>
        var g := s.log[id].update.toAgent;
        if Live(s, g) then
          c.mode != Blocking
          && (ColdPhase(s.acts[s.resident[g]]) ==> |s.acts[s.resident[g]].mailbox| < c.capacity)
        else !CapReached(c, s)
    case BlockedDeliver(_) => false
    case BlockedTimeout(_) => false
    case Evict(_) => false
    case Stop => false
    case Crash => false
    case Own(i, e) =>
      && !e.HandleDefer? && !e.HandlePanic?
      && (e.HandleFail? && i < |s.acts| ==> !ColdPhase(s.acts[i]))
    case MarkFail(i, _) => i < |s.acts| ==> !ColdPhase(s.acts[i])
    case _ => true
  }

  ghost predicate CalmRun(c: Config, s: State, ls: seq<Label>)
    decreases |ls|
  {
    ls == [] ||
    (CalmRun(c, s, ls[..|ls| - 1]) && Calm(c, Exec(c, s, ls[..|ls| - 1]), ls[|ls| - 1]))
  }

  predicate CalmAct(a: Act) {
    a.missed == {} && !a.deferred && !a.evicted && !a.cancelled && (ColdPhase(a) ==> a.overflow == {})
  }

  ghost predicate CalmState(s: State) {
    && s.owed == {} && s.waiting == map[] && !s.closed
    && (forall i :: 0 <= i < |s.acts| ==> CalmAct(s.acts[i]))
    && (forall i :: 0 <= i < |s.acts| && Registered(s, i) ==> !s.acts[i].pc.Exiting?)
  }

  lemma CalmMoves(s: State, t: State, i: nat)
    requires CalmState(s) && i < |s.acts| == |t.acts| && t.acts == s.acts[i := t.acts[i]]
    requires t.owed == s.owed && t.waiting == s.waiting && t.closed == s.closed && t.resident == s.resident
    requires CalmAct(t.acts[i]) && t.acts[i].agent == s.acts[i].agent && (t.acts[i].pc.Exiting? ==> s.acts[i].pc.Exiting?)
    ensures CalmState(t)
  {
  }

  lemma CalmActivate(s: State, g: Text)
    requires CalmState(s)
    ensures CalmState(Activate(s, g))
  {
  }

  lemma {:induction false} CalmSweep(c: Config, s: State, agents: seq<Text>)
    requires CalmState(s)
    ensures CalmState(SweepAll(c, s, agents))
    decreases |agents|
  {
    if agents != [] {
      if agents[0] in s.resident {
        CalmSweep(c, s, agents[1..]);
      } else if !CapReached(c, s) {
        CalmActivate(s, agents[0]);
        CalmSweep(c, Activate(s, agents[0]), agents[1..]);
      }
    }
  }

  lemma CalmSame(s: State, t: State)
    requires CalmState(s) && t.acts == s.acts && t.resident == s.resident
    requires t.owed == s.owed && t.waiting == s.waiting && t.closed == s.closed
    ensures CalmState(t)
  {
  }

  lemma CalmDeliver(c: Config, s: State, id: Text)
    requires c.Ok() && CalmState(s) && RegistryOk(c, s) && id in s.inflight && id in s.log && Calm(c, s, SendLock(id))
    ensures CalmState(Deliver(c, s, s.log[id].update))
  {
    var u := s.log[id].update;
    var t := Deliver(c, s, u);
    var s1 := s.(inflight := s.inflight - {u.id});
    CalmSame(s, s1);
    if Live(s1, u.toAgent) {
      CalmMoves(s1, t, s1.resident[u.toAgent]);
    } else {
      CalmActivate(s1, u.toAgent);
    }
  }

  lemma CalmPassivateActs(s: State, i: nat)
    requires CalmState(s) && Registered(s, i) && s.acts[i].pc.Selecting?
    ensures forall j :: 0 <= j < |s.acts| ==> CalmAct(Passivate(s, i).acts[j])
  {
  }

  lemma CalmOwesNothing(s: State, i: nat)
    requires i < |s.acts| && CalmAct(s.acts[i]) && s.owed == {}
    ensures Passivate(s, i).owed == {}
  {
  }

  lemma CalmPassivate(c: Config, s: State, i: nat)
    requires CalmState(s) && RegistryOk(c, s) && Enabled(s, IdleSave(i))
    ensures CalmState(Passivate(s, i))
  {
    hide CalmAct;
    var t := Passivate(s, i);
    assert Registered(s, i) && CalmAct(s.acts[i]);
    CalmOwesNothing(s, i);
    CalmPassivateActs(s, i);
    forall j | 0 <= j < |t.acts| && Registered(t, j) ensures !t.acts[j].pc.Exiting? {
      assert Registered(s, j);
    }
  }

  lemma CalmDeregister(s: State, i: nat)
    requires CalmState(s) && Enabled(s, Deregister(i))
    ensures CalmState(SetAct(Unregister(s, i), i, s.acts[i].(pc := Gone)))
  {
  }

  lemma CalmLocal(s: State, i: nat, e: Event)
    requires CalmState(s) && i < |s.acts| && !e.HandleDefer? && !e.HandlePanic? && (e.HandleFail? ==> !ColdPhase(s.acts[i]))
    ensures CalmState(SetAct(s, i, Local(s.snapshots, s.acts[i], e)))
  {
  }

  lemma CalmHandler(c: Config, s: State, i: nat, l: Label)
    requires CalmState(s) && Enabled(s, l) && Calm(c, s, l)
    requires (l.HandleOk? || l.MarkOk? || l.MarkFail?) && l.i == i
    ensures CalmState(Do(c, s, l))
  {
    assert CalmAct(s.acts[i]);
    CalmMoves(s, Do(c, s, l), i);
  }

  lemma CalmStep(c: Config, s: State, l: Label)
    requires c.Ok() && Inv(c, s) && CalmState(s) && Calm(c, s, l)
    ensures CalmState(Step(c, s, l))
  {
    hide ActsOk, DeliveryOk, CoverOk, HandledOk, SnapshotsOk, RegistryOk, CalmState, Deliver, SweepAll, Local, Passivate, Unregister;
    if Enabled(s, l) {
      var t := Do(c, s, l);
      match l
      case Release => CalmSame(s, t);
      case SendAppend(_) => CalmSame(s, t);
      case SendLock(id) => CalmDeliver(c, s, id);
      case SweepQuery(_) => CalmSame(s, t);
      case SweepLock(k) =>
        CalmSame(s, s.(sweeps := RemoveAt(s.sweeps, k)));
        CalmSweep(c, s.(sweeps := RemoveAt(s.sweeps, k)), s.sweeps[k]);
      case Own(i, e) => CalmLocal(s, i, e);
      case HandleOk(i, _) => CalmHandler(c, s, i, l);
      case MarkOk(i) => CalmHandler(c, s, i, l);
      case MarkFail(i, _) => CalmHandler(c, s, i, l);
      case IdleSave(i) => CalmPassivate(c, s, i);
      case Deregister(i) => CalmDeregister(s, i);
    }
  }

  lemma {:induction false} CalmRunStaysCalm(c: Config, ls: seq<Label>)
    requires c.Ok() && CalmRun(c, Init(), ls)
    ensures CalmState(Exec(c, Init(), ls))
    decreases |ls|
  {
    if ls != [] {
      CalmRunStaysCalm(c, ls[..|ls| - 1]);
      ReachableInv(c, ls[..|ls| - 1]);
      CalmStep(c, Exec(c, Init(), ls[..|ls| - 1]), ls[|ls| - 1]);
    }
  }

  /** No stranded wake. In a calm run a pending row of a non-resident agent
      belongs to a Send between append and lock; for an actor waiting in its
      warm select the row is in the mailbox, in such a Send, or it overflowed a
      mailbox that is still non-empty. */
  lemma NoStrandedWake(c: Config, ls: seq<Label>, g: Text, id: Text)
    requires c.Ok() && CalmRun(c, Init(), ls)
    requires Pending(Exec(c, Init(), ls).log, g, id) && id !in Exec(c, Init(), ls).inflight
    ensures var s := Exec(c, Init(), ls);
            && g in s.resident && s.resident[g] < |s.acts|
            && (s.acts[s.resident[g]].pc.Selecting? ==>
                  var a := s.acts[s.resident[g]];
                  InMail(a, id) || (id in a.overflow && a.mailbox != []))
  {
    hide Exec, ActsOk, DeliveryOk, HandledOk, SnapshotsOk;
    ReachableInv(c, ls);
    CalmRunStaysCalm(c, ls);
    var s := Exec(c, Init(), ls);
    assert Covers(s.acts[s.resident[g]], id);
    var i := s.resident[g];
    assert Registered(s, i);
  }

  /** When no Send is between append and lock and the actor's mailbox is empty,
      a waiting actor of a calm run has no pending row at all. */
  lemma QuiescentMeansDone(c: Config, ls: seq<Label>, g: Text, id: Text)
    requires c.Ok() && CalmRun(c, Init(), ls)
    requires var s := Exec(c, Init(), ls);
             && s.inflight == {} && id in s.log && s.log[id].update.toAgent == g
             && (g in s.resident ==> s.resident[g] < |s.acts| && s.acts[s.resident[g]].pc.Selecting?
                                     && s.acts[s.resident[g]].mailbox == [])
    ensures IsProcessed(Exec(c, Init(), ls).log, id)
  {
    hide Exec;
    if !IsProcessed(Exec(c, Init(), ls).log, id) {
      NoStrandedWake(c, ls, g, id);
    }
  }
}
