/** Results over whole runs: interference, deferral, durability and the boot handoff. */
module ActorRuns {
  import opened Updates
  import opened ActorProtocol
  import opened ActorFrames
  import opened ActorInvariants
  import opened ActorStepProofs
  import opened ActorGlobalProofs

  lemma ExecSnoc(c: Config, s: State, ls: seq<Label>, l: Label)
    ensures Exec(c, s, ls + [l]) == Step(c, Exec(c, s, ls), l)
  {
  }

  lemma {:induction false} ExecConcat(c: Config, s: State, ls: seq<Label>, ms: seq<Label>)
    ensures Exec(c, s, ls + ms) == Exec(c, Exec(c, s, ls), ms)
    decreases |ms|
  {
    if ms == [] {
      assert ls + ms == ls;
    } else {
      var n := |ms| - 1;
      assert ls + ms == (ls + ms[..n]) + [ms[n]];
      ExecSnoc(c, s, ls + ms[..n], ms[n]);
      ExecConcat(c, s, ls, ms[..n]);
    }
  }

  // ------------------------------------------------------------ foreign steps

  /** The fields only an activation's own goroutine writes. */
  ghost predicate SamePlace(a: Act, b: Act) {
    && b.agent == a.agent && b.pc == a.pc && b.deferred == a.deferred
    && b.memory == a.memory && b.skip == a.skip && b.folded == a.folded
    && b.missed == a.missed && b.initial == a.initial && b.saved == a.saved
  }

  /** Steps that the goroutine of activation i does not take; Cancel only sets its context. */
  predicate Foreign(l: Label, i: nat) {
    match l
    case Own(j, e) => j != i || e == Cancel
    case HandleOk(j, _) => j != i
    case MarkOk(j) => j != i
    case MarkFail(j, _) => j != i
    case IdleSave(j) => j != i
    case Deregister(j) => j != i
    case Crash => false
    case _ => true
  }

  ghost predicate Undisturbed(s: State, t: State, i: nat)
    requires i < |s.acts|
  {
    && i < |t.acts| && SamePlace(s.acts[i], t.acts[i])
    && (forall k :: k in t.calls && k.act == i ==> k in s.calls)
  }

  lemma SteerSpares(c: Config, s: State, j: nat, u: Update, i: nat)
    requires i < |s.acts| && j < |s.acts|
    ensures Undisturbed(s, Steer(c, s, j, u), i)
  {
    var a := s.acts[j];
    if c.mode != Blocking {
      var b := if |a.mailbox| < c.capacity then Push(a, u) else a.(overflow := a.overflow + {u.id});
      assert SamePlace(a, b);
      assert Steer(c, s, j, u).acts == s.acts[j := b];
    }
  }

  /** A Send moves no activation: it touches mailboxes and registration only. */
  lemma DeliverSpares(c: Config, s: State, u: Update, i: nat)
    requires i < |s.acts|
    ensures Undisturbed(s, Deliver(c, s, u), i)
  {
    hide Steer;
    var s1 := s.(inflight := s.inflight - {u.id});
    if Live(s1, u.toAgent) {
      SteerSpares(c, s1, s1.resident[u.toAgent], u, i);
    }
  }

  lemma LocalSpares(s: State, j: nat, e: Event, i: nat)
    requires i < |s.acts| && j < |s.acts| && (j != i || e == Cancel)
    ensures Undisturbed(s, SetAct(s, j, Local(s.snapshots, s.acts[j], e)), i)
  {
  }

  lemma OtherMarkSpares(c: Config, s: State, l: Label, i: nat)
    requires i < |s.acts| && Foreign(l, i) && Enabled(s, l)
    requires l.MarkOk? || l.MarkFail?
    ensures Undisturbed(s, Do(c, s, l), i)
  {
    hide MarkOkAct, MarkFailAct, MarkProcessed;
    assert Do(c, s, l).acts[i] == s.acts[i];
  }

  lemma OtherHandlerSpares(s: State, j: nat, next: Memory, i: nat)
    requires i < |s.acts| && j < |s.acts| && j != i && s.acts[j].pc.Handling?
    ensures Undisturbed(s, Handled(s, j, next), i)
  {
  }

  lemma OtherExitSpares(c: Config, s: State, l: Label, i: nat)
    requires i < |s.acts| && Foreign(l, i) && Enabled(s, l)
    requires l.IdleSave? || l.Deregister?
    ensures Undisturbed(s, Do(c, s, l), i)
  {
    assert Do(c, s, l).acts[i] == s.acts[i];
  }

  lemma OtherActSpares(c: Config, s: State, l: Label, i: nat)
    requires i < |s.acts| && Foreign(l, i) && Enabled(s, l)
    requires ActLabel(l)
    ensures Undisturbed(s, Do(c, s, l), i)
  {
    hide Undisturbed, Handled;
    match l
    case HandleOk(j, next) => OtherHandlerSpares(s, j, next, i);
    case MarkOk(_) => OtherMarkSpares(c, s, l, i);
    case MarkFail(_, _) => OtherMarkSpares(c, s, l, i);
    case IdleSave(_) => OtherExitSpares(c, s, l, i);
    case Deregister(_) => OtherExitSpares(c, s, l, i);
  }

  predicate NearLabel(l: Label) {
    l.SendLock? || l.SweepLock? || l.Own?
  }

  predicate ActLabel(l: Label) {
    l.HandleOk? || l.MarkOk? || l.MarkFail? || l.IdleSave? || l.Deregister?
  }

  lemma NearSpares(c: Config, s: State, l: Label, i: nat)
    requires i < |s.acts| && Foreign(l, i) && Enabled(s, l) && NearLabel(l)
    ensures Undisturbed(s, Do(c, s, l), i)
  {
    hide Deliver, SweepAll, Local, Undisturbed;
    match l
    case SendLock(id) => DeliverSpares(c, s, s.log[id].update, i);
    case SweepLock(k) => SweptSpares(c, s, k, i);
    case Own(j, e) => LocalSpares(s, j, e, i);
  }

  lemma SweptSpares(c: Config, s: State, k: nat, i: nat)
    requires i < |s.acts| && k < |s.sweeps|
    ensures Undisturbed(s, Swept(c, s, k), i)
  {
    hide Swept;
    SweptFrame(c, s, k);
  }

  lemma GlobalSpares(c: Config, s: State, l: Label, i: nat)
    requires i < |s.acts| && Foreign(l, i) && Enabled(s, l) && !NearLabel(l) && !ActLabel(l)
    ensures Undisturbed(s, Do(c, s, l), i)
  {
    hide Deliver, Swept, Local;
  }

  /** Whatever others do, an activation's program counter, memory and skip set are its own. */
  lemma ForeignSpares(c: Config, s: State, l: Label, i: nat)
    requires i < |s.acts| && Foreign(l, i)
    ensures Undisturbed(s, Step(c, s, l), i)
  {
    hide Do;
    if Enabled(s, l) {
      if ActLabel(l) {
        OtherActSpares(c, s, l, i);
      } else if NearLabel(l) {
        NearSpares(c, s, l, i);
      } else {
        GlobalSpares(c, s, l, i);
      }
    }
  }

  // ----------------------------------------------------------------- deferral

  predicate Waiting(a: Act) {
    a.deferred && (a.pc.ColdDraining? || a.pc.Selecting? || a.pc.WarmDraining?)
  }

  /** The activation still waits behind its deferred head, or has ended. */
  predicate StillWaiting(a: Act) {
    Waiting(a) || a.pc.Exiting? || a.pc.Gone?
  }

  ghost predicate FoldedNothing(s: State, t: State, i: nat)
    requires i < |s.acts|
  {
    && i < |t.acts| && StillWaiting(t.acts[i])
    && t.acts[i].memory == s.acts[i].memory && t.acts[i].skip == s.acts[i].skip && t.acts[i].folded == s.acts[i].folded
    && (forall k :: k in t.calls && k.act == i ==> k in s.calls)
  }

  /** No label of the run is a receive of activation i in its warm select. */
  ghost predicate NoWake(c: Config, s: State, ls: seq<Label>, i: nat)
    decreases |ls|
  {
    ls == [] ||
    (&& NoWake(c, s, ls[..|ls| - 1], i)
     && var m := Exec(c, s, ls[..|ls| - 1]);
        (ls[|ls| - 1] == Own(i, Receive) && i < |m.acts| ==> !m.acts[i].pc.Selecting?))
  }

  lemma WaitingLocal(snapshots: map<Text, Memory>, a: Act, e: Event)
    requires StillWaiting(a) && !(e == Receive && a.pc.Selecting?)
    ensures var b := Local(snapshots, a, e);
            StillWaiting(b) && b.memory == a.memory && b.skip == a.skip && b.folded == a.folded
  {
  }

  lemma WaitingStep(c: Config, s: State, l: Label, i: nat)
    requires i < |s.acts| && StillWaiting(s.acts[i]) && !(l == Own(i, Receive) && s.acts[i].pc.Selecting?)
    ensures FoldedNothing(s, Step(c, s, l), i)
  {
    hide Local, Deliver, SweepAll, HandleOkAct, MarkOkAct, MarkFailAct;
    if Foreign(l, i) {
      ForeignSpares(c, s, l, i);
    } else if l.Own? && Enabled(s, l) {
      WaitingLocal(s.snapshots, s.acts[i], l.e);
    }
  }

  /** After a deferral the activation calls no handler and folds nothing until it
      receives a further update in its warm select, whatever else happens. */
  lemma {:induction false} DeferralWaitsForMail(c: Config, s: State, ls: seq<Label>, i: nat)
    requires i < |s.acts| && Waiting(s.acts[i]) && NoWake(c, s, ls, i)
    ensures FoldedNothing(s, Exec(c, s, ls), i)
    decreases |ls|
  {
    hide Step;
    if ls != [] {
      DeferralWaitsForMail(c, s, ls[..|ls| - 1], i);
      WaitingStep(c, Exec(c, s, ls[..|ls| - 1]), ls[|ls| - 1], i);
    }
  }

  // ------------------------------------------------------- the log only grows

  /** Rows are never lost, rewritten or reopened, through crashes included:
      a copy that a deferred activation discards stays in the log. */
  lemma {:induction false} LogIsDurable(c: Config, s: State, ls: seq<Label>)
    ensures Extends(s.log, Exec(c, s, ls).log)
    decreases |ls|
  {
    if ls != [] {
      LogIsDurable(c, s, ls[..|ls| - 1]);
      StepExtendsLog(c, Exec(c, s, ls[..|ls| - 1]), ls[|ls| - 1]);
    }
  }

  // ------------------------------------------------------- the latest snapshot

  /** What survives the process: the two tables, and nothing else. */
  lemma CrashForgets(c: Config, s: State)
    ensures var t := Step(c, s, Crash);
            && t.log == s.log && t.snapshots == s.snapshots
            && t.resident == map[] && t.inflight == {} && t.waiting == map[] && t.sweeps == [] && !t.closed && !t.ready
            && |t.acts| == |s.acts| && forall i :: 0 <= i < |t.acts| ==> t.acts[i].pc == Gone
  {
  }

  /** Step n of the run passivated an activation of g: waiting, with an empty
      mailbox and not evicted. */
  ghost predicate Saves(c: Config, ls: seq<Label>, n: nat, g: Text) {
    && n < |ls| && ls[n].IdleSave?
    && var s := Exec(c, Init(), ls[..n]);
       && ls[n].i < |s.acts| && s.acts[ls[n].i].agent == g
       && s.acts[ls[n].i].pc.Selecting? && s.acts[ls[n].i].mailbox == [] && !s.acts[ls[n].i].evicted
  }

  lemma StepSnapshots(c: Config, s: State, l: Label)
    ensures Step(c, s, l).snapshots ==
            if l.IdleSave? && l.i < |s.acts| && s.acts[l.i].pc.Selecting? && s.acts[l.i].mailbox == [] && !s.acts[l.i].evicted
            then s.snapshots[s.acts[l.i].agent := s.acts[l.i].memory] else s.snapshots
  {
    hide Deliver, Swept, Local, MarkOkAct, MarkFailAct, HandleOkAct, Mark, Unregister;
    if Enabled(s, l) {
      match l
      case SendLock(id) => DeliverSnapshots(c, s, s.log[id].update);
      case SweepLock(k) => SweptFrame(c, s, k);
      case MarkOk(i) => MarkSnapshots(s, i, true);
      case MarkFail(i, applied) => MarkSnapshots(s, i, applied);
      case Deregister(i) => UnregisterSnapshots(s, i);
      case _ =>
    }
  }

  lemma DeliverSnapshots(c: Config, s: State, u: Update)
    ensures Deliver(c, s, u).snapshots == s.snapshots
  {
    hide Push;
  }

  lemma MarkSnapshots(s: State, i: nat, applied: bool)
    requires i < |s.acts| && s.acts[i].pc.Marking?
    ensures Mark(s, i, applied).snapshots == s.snapshots
  {
  }

  lemma UnregisterSnapshots(s: State, i: nat)
    requires i < |s.acts|
    ensures Unregister(s, i).snapshots == s.snapshots
  {
  }

  /** A stored snapshot is the memory of its agent's latest passivation, crashes
      and restarts included. */
  lemma {:induction false} SnapshotIsLatest(c: Config, ls: seq<Label>, g: Text) returns (n: nat)
    requires g in Exec(c, Init(), ls).snapshots
    ensures Saves(c, ls, n, g) && Exec(c, Init(), ls).snapshots[g] == Exec(c, Init(), ls[..n]).acts[ls[n].i].memory
    ensures forall m :: n < m < |ls| ==> !Saves(c, ls, m, g)
    decreases |ls|
  {
    hide Step;
    var k := |ls| - 1;
    StepSnapshots(c, Exec(c, Init(), ls[..k]), ls[k]);
    if Saves(c, ls, k, g) {
      n := k;
    } else {
      n := SnapshotIsLatest(c, ls[..k], g);
      assert forall m :: 0 <= m < k ==> ls[..k][..m] == ls[..m];
      SavesEarlier(c, ls, k, g);
    }
  }

  /** An activation that loads starts from what its agent's latest passivation saved,
      and from nothing if there was none or the load fails. */
  lemma LoadIsLatest(c: Config, ls: seq<Label>, i: nat, ok: bool) returns (n: nat)
    requires i < |Exec(c, Init(), ls).acts| && Exec(c, Init(), ls).acts[i].pc.Loading?
    ensures var s := Exec(c, Init(), ls); var t := Step(c, s, Own(i, Load(ok))); var g := s.acts[i].agent;
            && i < |t.acts| && t.acts[i].pc == Querying(AtCold) && t.acts[i].initial == t.acts[i].memory
            && (ok && g in s.snapshots ==>
                  Saves(c, ls, n, g) && t.acts[i].memory == Exec(c, Init(), ls[..n]).acts[ls[n].i].memory
                  && forall m :: n < m < |ls| ==> !Saves(c, ls, m, g))
            && (!ok || g !in s.snapshots ==> t.acts[i].memory == [] && forall m :: 0 <= m < |ls| ==> !ok || !Saves(c, ls, m, g))
  {
    hide Exec;
    var s := Exec(c, Init(), ls);
    n := 0;
    if ok && s.acts[i].agent in s.snapshots {
      n := SnapshotIsLatest(c, ls, s.acts[i].agent);
    } else if ok {
      forall m | 0 <= m < |ls| ensures !Saves(c, ls, m, s.acts[i].agent) {
        if Saves(c, ls, m, s.acts[i].agent) {
          SavedStays(c, ls, m, s.acts[i].agent);
        }
      }
    }
  }

  /** What was saved once is never without a snapshot again. */
  lemma {:induction false} SavedStays(c: Config, ls: seq<Label>, n: nat, g: Text)
    requires Saves(c, ls, n, g)
    ensures g in Exec(c, Init(), ls).snapshots
    decreases |ls|
  {
    hide Step;
    var k := |ls| - 1;
    StepSnapshots(c, Exec(c, Init(), ls[..k]), ls[k]);
    if n < k {
      SavesEarlier(c, ls, k, g);
      SavedStays(c, ls[..k], n, g);
    }
  }

  lemma SavesEarlier(c: Config, ls: seq<Label>, k: nat, g: Text)
    requires k <= |ls|
    ensures forall m: nat :: m < k ==> (Saves(c, ls[..k], m, g) <==> Saves(c, ls, m, g))
  {
    hide Exec;
    forall m: nat | m < k ensures Saves(c, ls[..k], m, g) <==> Saves(c, ls, m, g) {
      assert ls[..k][..m] == ls[..m];
    }
  }

  // -------------------------------------------------------------- boot handoff

  /** Once delivery is released no dispatch is accepted behind the sweep's back,
      however long the runtime runs. */
  lemma {:induction false} AcceptedFrozen(c: Config, s: State, ls: seq<Label>)
    requires s.ready && Crash !in ls
    ensures Exec(c, s, ls).ready && Exec(c, s, ls).accepted == s.accepted
    decreases |ls|
  {
    hide Step;
    if ls != [] {
      var n := |ls| - 1;
      assert ls[n] in ls && forall l :: l in ls[..n] ==> l in ls;
      AcceptedFrozen(c, s, ls[..n]);
      StepKeepsBoot(c, Exec(c, s, ls[..n]), ls[n]);
    }
  }

  /** What each step does to the two fields of the boot handoff. */
  lemma StepBoot(c: Config, s: State, l: Label)
    ensures Step(c, s, l).ready <==> l == Release || (s.ready && l != Crash)
    ensures Step(c, s, l).accepted == s.accepted +
            if l.DispatchPaused? && !s.ready && l.u.id != [] && l.u.toAgent != [] then {l.u.id} else {}
  {
    if l == Crash {
      assert Step(c, s, l) == Crashed(s);
    } else if s.ready {
      StepKeepsBoot(c, s, l);
    } else {
      PausedBoot(c, s, l);
    }
  }

  lemma PausedBoot(c: Config, s: State, l: Label)
    requires !s.ready && l != Crash
    ensures Step(c, s, l).ready <==> l == Release
    ensures Step(c, s, l).accepted == s.accepted +
            if l.DispatchPaused? && l.u.id != [] && l.u.toAgent != [] then {l.u.id} else {}
  {
    hide Swept, Local, Deliver, MarkOkAct, MarkFailAct, HandleOkAct, MarkProcessed, Stopped, Unpark, Append;
    hide Passivate, Unregister;
    if Enabled(s, l) {
      match l
      case SendLock(id) => DeliverFrame(c, s, s.log[id].update);
      case SweepLock(k) => SweptFrame(c, s, k);
      case BlockedDeliver(id) => UnparkFrame(c, s, id);
      case Stop => StoppedFrame(s);
      case IdleSave(i) => LeavingFrame(s, i);
      case Deregister(i) => LeavingFrame(s, i);
      case _ =>
    }
  }

  /** Delivery is released exactly if Release came after the last crash. */
  lemma {:induction false} ReleasedIff(c: Config, ls: seq<Label>)
    ensures Exec(c, Init(), ls).ready <==> exists n :: 0 <= n < |ls| && ls[n] == Release && Crash !in ls[n..]
    decreases |ls|
  {
    hide Step;
    if ls != [] {
      var k := |ls| - 1;
      ReleasedIff(c, ls[..k]);
      StepBoot(c, Exec(c, Init(), ls[..k]), ls[k]);
      forall n | 0 <= n < k ensures Crash in ls[n..] <==> Crash in ls[..k][n..] || ls[k] == Crash {
        assert ls[n..] == ls[..k][n..] + [ls[k]];
      }
      if Exec(c, Init(), ls).ready {
        if ls[k] == Release {
          assert ls[k..] == [Release];
        } else {
          var n :| 0 <= n < k && ls[..k][n] == Release && Crash !in ls[..k][n..];
          assert ls[n] == Release;
        }
      }
      if n :| 0 <= n < |ls| && ls[n] == Release && Crash !in ls[n..] {
        assert ls[k] == ls[n..][k - n];
        assert n < k ==> ls[..k][n] == Release && Crash !in ls[..k][n..];
      }
    }
  }

  /** Step n of the run dispatched a complete update while delivery was paused. */
  predicate DispatchedPaused(c: Config, ls: seq<Label>, n: nat, id: Text) {
    && n < |ls| && ls[n].DispatchPaused? && ls[n].u.id == id && id != [] && ls[n].u.toAgent != []
    && !Exec(c, Init(), ls[..n]).ready
  }

  /** The accepted dispatches are exactly those made while delivery was paused. */
  lemma {:induction false} AcceptedIff(c: Config, ls: seq<Label>, id: Text)
    ensures id in Exec(c, Init(), ls).accepted <==> exists n: nat :: n <= |ls| && DispatchedPaused(c, ls, n, id)
    decreases |ls|
  {
    hide Step;
    if ls != [] {
      var k := |ls| - 1;
      AcceptedIff(c, ls[..k], id);
      StepBoot(c, Exec(c, Init(), ls[..k]), ls[k]);
      forall n: nat | n < k ensures DispatchedPaused(c, ls[..k], n, id) <==> DispatchedPaused(c, ls, n, id) {
        assert ls[..k][..n] == ls[..n];
      }
      if id in Exec(c, Init(), ls[..k]).accepted {
        var n: nat :| n <= k && DispatchedPaused(c, ls[..k], n, id);
        assert DispatchedPaused(c, ls, n, id);
      } else if id in Exec(c, Init(), ls).accepted {
        assert DispatchedPaused(c, ls, k, id);
      } else {
        assert forall n: nat :: n <= |ls| && DispatchedPaused(c, ls, n, id) ==> n < k;
      }
    }
  }

  /** The sweep's query lists exactly the agents with an unprocessed row. */
  lemma BacklogAnswer(log: Log, agents: seq<Text>)
    ensures IsBacklogged(log, agents) <==>
            forall g :: g in agents <==> exists id :: id in log && !log[id].processed && log[id].update.toAgent == g
  {
    if IsBacklogged(log, agents) {
      forall g | g in agents ensures exists id :: id in log && !log[id].processed && log[id].update.toAgent == g {
        var id :| id in log && Pending(log, g, id);
      }
    }
    if forall g :: g in agents <==> exists id :: id in log && !log[id].processed && log[id].update.toAgent == g {
      forall g | g in agents ensures exists id :: id in log && Pending(log, g, id) {
        var id :| id in log && !log[id].processed && log[id].update.toAgent == g;
        assert Pending(log, g, id);
      }
    }
  }

  /** The locked half of Sweep meets the cap before the end of its list. */
  predicate SweepRefused(c: Config, s: State, agents: seq<Text>)
    decreases |agents|
  {
    if agents == [] then false
    else if agents[0] in s.resident then SweepRefused(c, s, agents[1..])
    else CapReached(c, s) || SweepRefused(c, Activate(s, agents[0]), agents[1..])
  }

  /** A sweep makes every listed agent resident exactly if it is not refused. */
  lemma {:induction false} SweepActivatesAll(c: Config, s: State, agents: seq<Text>)
    ensures !SweepRefused(c, s, agents) <==> forall g :: g in agents ==> g in SweepAll(c, s, agents).resident
    decreases |agents|
  {
    if agents != [] {
      assert agents == [agents[0]] + agents[1..];
      assert forall g :: g in agents <==> g == agents[0] || g in agents[1..];
      if agents[0] in s.resident {
        SweepActivatesAll(c, s, agents[1..]);
        SweepFrame(c, s, agents[1..]);
      } else if !CapReached(c, s) {
        var s1 := Activate(s, agents[0]);
        SweepActivatesAll(c, s1, agents[1..]);
        SweepFrame(c, s1, agents[1..]);
        assert agents[0] in s1.resident;
      } else {
        assert agents[0] in agents && SweepAll(c, s, agents) == s;
      }
    }
  }

  lemma {:induction false} UncappedNeverRefuses(c: Config, s: State, agents: seq<Text>)
    requires c.maxResident == 0
    ensures !SweepRefused(c, s, agents)
    decreases |agents|
  {
    if agents != [] {
      if agents[0] in s.resident {
        UncappedNeverRefuses(c, s, agents[1..]);
      } else {
        UncappedNeverRefuses(c, Activate(s, agents[0]), agents[1..]);
      }
    }
  }

  /** Registered, but by an activation that is already told to stop. */
  predicate Lame(s: State, g: Text) {
    g in s.resident && !Live(s, g)
  }

  /** After an unrefused sweep a listed agent has a live entry, or still the lame
      one that the sweep skipped. */
  lemma SweepEnlivens(c: Config, s: State, agents: seq<Text>, g: Text)
    requires !SweepRefused(c, s, agents) && g in agents
    ensures Live(SweepAll(c, s, agents), g) || Lame(s, g)
  {
    hide SweepAll, SweepRefused;
    SweepActivatesAll(c, s, agents);
    SweepFrame(c, s, agents);
    var t := SweepAll(c, s, agents);
    if g !in s.resident {
      assert t.acts[t.resident[g]] == Started(t.acts[t.resident[g]].agent);
    }
  }

  /** In a reachable state the skipped lame entry is the exact condition: a sweep
      leaves a listed agent without a live entry only there. */
  lemma SweepEnlivensIff(c: Config, s: State, agents: seq<Text>, g: Text)
    requires RegistryOk(c, s) && !SweepRefused(c, s, agents) && g in agents
    ensures Live(SweepAll(c, s, agents), g) <==> !Lame(s, g)
  {
    hide SweepAll, SweepRefused;
    SweepEnlivens(c, s, agents, g);
    SweepFrame(c, s, agents);
  }

  /** A sweep that is not refused reaches every row that was in the log when it
      queried: after its locked half the row is processed, its agent has a live
      activation, or its agent still had an evicted one registered, which the sweep
      skips. */
  lemma SweepReaches(c: Config, s: State, agents: seq<Text>, ls: seq<Label>, k: nat, id: Text)
    requires Enabled(s, SweepQuery(agents)) && id in s.log
    requires var t := Exec(c, Step(c, s, SweepQuery(agents)), ls);
             && k < |t.sweeps| && t.sweeps[k] == agents && !t.closed
             && !SweepRefused(c, t.(sweeps := RemoveAt(t.sweeps, k)), agents)
    ensures var t := Exec(c, Step(c, s, SweepQuery(agents)), ls); var r := Step(c, t, SweepLock(k));
            var g := s.log[id].update.toAgent;
            IsProcessed(r.log, id) || Live(r, g) || (Lame(t, g) && g in r.resident && r.resident[g] == t.resident[g])
  {
    hide Exec, SweepAll, SweepRefused;
    var q := Step(c, s, SweepQuery(agents));
    var t := Exec(c, q, ls);
    LogIsDurable(c, q, ls);
    var t1 := t.(sweeps := RemoveAt(t.sweeps, k));
    SweepFrame(c, t1, agents);
    if s.log[id].update.toAgent in agents {
      SweepEnlivens(c, t1, agents, s.log[id].update.toAgent);
    }
  }

  /** Boot handoff. Every dispatch accepted before delivery was released is in
      the log, and once Start's sweep has run it is processed, or its agent has a
      live activation, or an evicted one that had not left yet when the sweep came;
      without a crash in between these are all dispatches accepted while paused.
      The adapter runs the actor runtime without a resident cap. */
  lemma BootHandoff(c: Config, ls0: seq<Label>, ls1: seq<Label>, agents: seq<Text>, ls2: seq<Label>, k: nat)
    requires c.Ok() && c.maxResident == 0
    requires var s0 := Exec(c, Init(), ls0); var s1 := Exec(c, Step(c, s0, Release), ls1);
             && Enabled(s1, SweepQuery(agents))
             && var t := Exec(c, Step(c, s1, SweepQuery(agents)), ls2);
                k < |t.sweeps| && t.sweeps[k] == agents && !t.closed
    ensures var s0 := Exec(c, Init(), ls0); var s1 := Exec(c, Step(c, s0, Release), ls1);
            var t := Exec(c, Step(c, s1, SweepQuery(agents)), ls2); var r := Step(c, t, SweepLock(k));
            && (forall id :: id in s0.accepted ==>
                  && id in s0.log && id in r.log
                  && (IsProcessed(r.log, id) || Live(r, r.log[id].update.toAgent) || Lame(t, r.log[id].update.toAgent)))
            && (Crash !in ls1 && Crash !in ls2 ==> r.accepted == s0.accepted)
  {
    hide Exec, ActsOk, RegistryOk, DeliveryOk, CoverOk, HandledOk, SnapshotsOk, SweepAll, Live, Lame;
    ReachableInv(c, ls0);
    var s0 := Exec(c, Init(), ls0);
    var s1 := Exec(c, Step(c, s0, Release), ls1);
    var q := Step(c, s1, SweepQuery(agents));
    var t := Exec(c, q, ls2);
    LogIsDurable(c, Step(c, s0, Release), ls1);
    LogIsDurable(c, q, ls2);
    StepExtendsLog(c, t, SweepLock(k));
    UncappedNeverRefuses(c, t.(sweeps := RemoveAt(t.sweeps, k)), agents);
    var r := Step(c, t, SweepLock(k));
    forall id | id in s0.accepted
      ensures id in s1.log && (IsProcessed(r.log, id) || Live(r, s1.log[id].update.toAgent) || Lame(t, s1.log[id].update.toAgent))
    {
      SweepReaches(c, s1, agents, ls2, k, id);
    }
    if Crash !in ls1 && Crash !in ls2 {
      AcceptedFrozen(c, Step(c, s0, Release), ls1);
      AcceptedFrozen(c, q, ls2);
      StepKeepsBoot(c, t, SweepLock(k));
    }
  }
}
