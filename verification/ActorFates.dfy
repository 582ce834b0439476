/** What becomes of a row when its activation leaves, and where an activation's
    memory comes from. */
module ActorFates {
  import opened Updates
  import opened ActorProtocol
  import opened ActorFrames
  import opened ActorInvariants
  import opened ActorStepProofs
  import opened ActorGlobalProofs
  import opened ActorRuns

  // ------------------------------------------------------------ rows that were held

  predicate Got(a: Act, id: Text) {
    exists p :: 0 <= p < |a.received| && a.received[p].id == id
  }

  /** The channel side of the activation has had to do with the row. */
  predicate Held(a: Act, id: Text) {
    || Got(a, id) || id in a.overflow || id in a.missed
    || ((a.pc.Handling? || a.pc.Marking?) && a.pc.work.InChannel? && a.pc.u.id == id)
  }

  /** A held row is the activation's own and no Send is delivering it any more;
      as long as the activation is registered nobody has given it up either. */
  ghost predicate HeldOk(s: State, i: nat, id: Text)
    requires i < |s.acts|
  {
    && id in s.log && s.log[id].update.toAgent == s.acts[i].agent
    && id !in s.inflight && id !in s.waiting
    && (Registered(s, i) ==> id !in s.owed)
  }

  ghost predicate AllHeldOk(s: State) {
    forall i, id :: 0 <= i < |s.acts| && Held(s.acts[i], id) ==> HeldOk(s, i, id)
  }

  /** A row that was given up is no longer being delivered. */
  ghost predicate OwedOk(s: State) {
    forall id :: id in s.owed ==> id in s.log && id !in s.inflight && id !in s.waiting
  }

  ghost predicate FatesOk(s: State) {
    AllHeldOk(s) && OwedOk(s)
  }

  // ----------------------------------------------------------------- preservation

  /** Nothing new is held, nobody is newly registered, no delivery starts. */
  ghost predicate HoldsLess(s: State, t: State) {
    && |s.acts| <= |t.acts|
    && (forall i, id :: 0 <= i < |s.acts| && Held(t.acts[i], id) ==> Held(s.acts[i], id))
    && (forall i :: 0 <= i < |s.acts| ==> t.acts[i].agent == s.acts[i].agent && (Registered(t, i) ==> Registered(s, i)))
    && (forall i, id :: |s.acts| <= i < |t.acts| ==> !Held(t.acts[i], id))
    && t.inflight <= s.inflight
    && (forall id :: id in t.waiting ==> id in s.waiting || id in s.inflight)
  }

  /** A newly given-up row was being delivered, or belongs to an agent with no entry. */
  ghost predicate GivesUp(s: State, t: State, id: Text) {
    && id in t.log && id !in t.inflight && id !in t.waiting
    && (|| id in s.owed || id in s.inflight || id in s.waiting || t.log[id].update.toAgent !in t.resident)
  }

  lemma FatesKept(s: State, t: State)
    requires FatesOk(s) && HoldsLess(s, t) && Extends(s.log, t.log)
    requires forall id :: id in t.owed ==> GivesUp(s, t, id)
    ensures FatesOk(t)
  {
    hide Held;
    forall i, id | 0 <= i < |t.acts| && Held(t.acts[i], id) ensures HeldOk(t, i, id) {
      assert HeldOk(s, i, id);
    }
  }

  lemma OwedStays(s: State, t: State)
    requires OwedOk(s) && t.owed <= s.owed && Extends(s.log, t.log) && t.inflight <= s.inflight
    requires forall id :: id in t.waiting ==> id in s.waiting || id in s.inflight
    ensures forall id :: id in t.owed ==> GivesUp(s, t, id)
  {
  }

  /** Activation i changes into b and holds nothing new. */
  lemma ActHoldsLess(s: State, t: State, i: nat)
    requires i < |s.acts| == |t.acts| && t.acts == s.acts[i := t.acts[i]] && t.acts[i].agent == s.acts[i].agent
    requires forall id :: Held(t.acts[i], id) ==> Held(s.acts[i], id)
    requires t.resident == s.resident && t.inflight == s.inflight && t.waiting == s.waiting
    ensures HoldsLess(s, t)
  {
    hide Held;
  }

  lemma MoveKeepsFates(s: State, t: State, i: nat)
    requires FatesOk(s) && i < |s.acts| && |t.acts| == |s.acts| && t.acts[i].agent == s.acts[i].agent
    requires t == s.(acts := s.acts[i := t.acts[i]], log := t.log, calls := t.calls)
    requires Extends(s.log, t.log) && forall id :: Held(t.acts[i], id) ==> Held(s.acts[i], id)
    ensures FatesOk(t)
  {
    hide Held;
    ActHoldsLess(s, t, i);
    OwedStays(s, t);
    FatesKept(s, t);
  }

  /** The part of Held that local steps read. */
  predicate OutOfHand(a: Act, id: Text) {
    id in a.overflow || id in a.missed || ((a.pc.Handling? || a.pc.Marking?) && a.pc.work.InChannel? && a.pc.u.id == id)
  }

  lemma WorkOutOfHand(snapshots: map<Text, Memory>, a: Act, e: Event, id: Text)
    requires OutOfHand(WorkStep(snapshots, a, e), id)
    ensures OutOfHand(a, id)
  {
    match e
    case Advance =>
    case Bail =>
    case HandleFail =>
    case HandleDefer =>
    case _ =>
  }

  lemma WorkReceives(snapshots: map<Text, Memory>, a: Act, e: Event)
    ensures WorkStep(snapshots, a, e).received == a.received
  {
  }

  lemma WorkHolds(snapshots: map<Text, Memory>, a: Act, e: Event, id: Text)
    requires Held(WorkStep(snapshots, a, e), id)
    ensures Held(a, id)
  {
    hide WorkStep;
    WorkReceives(snapshots, a, e);
    if OutOfHand(WorkStep(snapshots, a, e), id) {
      WorkOutOfHand(snapshots, a, e, id);
    }
  }

  lemma LoopHolds(log: Log, a: Act, e: Event, id: Text)
    requires MailOk(log, a) && Held(LoopStep(a, e), id)
    ensures Held(a, id)
  {
    var b := LoopStep(a, e);
    assert b.received == a.received;
    assert Got(b, id) ==> Got(a, id);
    if a.mailbox != [] {
      assert a.mailbox[0] == a.received[|a.received| - |a.mailbox|];
      assert Got(a, a.mailbox[0].id);
    }
  }

  lemma LocalKeepsAgent(snapshots: map<Text, Memory>, a: Act, e: Event)
    ensures Local(snapshots, a, e).agent == a.agent
  {
  }

  lemma OwnKeepsFates(s: State, i: nat, e: Event)
    requires FatesOk(s) && ActsOk(s) && i < |s.acts|
    ensures FatesOk(SetAct(s, i, Local(s.snapshots, s.acts[i], e)))
  {
    ActIsOk(s, i);
    hide Held, ActsOk, WorkStep, LoopStep, FatesOk;
    var a := s.acts[i];
    var b := Local(s.snapshots, a, e);
    LocalKeepsAgent(s.snapshots, a, e);
    forall id | Held(b, id) ensures Held(a, id) {
      if IsLoopEvent(e) {
        LoopHolds(s.log, a, e, id);
      } else {
        WorkHolds(s.snapshots, a, e, id);
      }
    }
    MoveKeepsFates(s, SetAct(s, i, b), i);
  }

  lemma HandlerHolds(a: Act, b: Act, id: Text)
    requires (a.pc.Handling? && exists next :: b == HandleOkAct(a, next)) ||
             (a.pc.Marking? && ((exists i :: b == MarkOkAct(i, a)) || exists applied :: b == MarkFailAct(a, applied)))
    requires Held(b, id)
    ensures Held(a, id) && b.agent == a.agent
  {
    assert b.received == a.received;
    assert Got(b, id) ==> Got(a, id);
  }

  lemma HandlerKeepsFates(c: Config, s: State, l: Label)
    requires FatesOk(s) && Enabled(s, l) && (l.HandleOk? || l.MarkOk? || l.MarkFail?)
    ensures FatesOk(Do(c, s, l))
  {
    hide Held, FatesOk, HandleOkAct, MarkOkAct, MarkFailAct, MarkProcessed;
    var i := l.i;
    var t := Do(c, s, l);
    var a, b := s.acts[i], t.acts[i];
    HandlerAgent(c, s, l);
    forall id | Held(b, id) ensures Held(a, id) {
      HandlerHolds(a, b, id);
    }
    StepExtendsLog(c, s, l);
    MoveKeepsFates(s, t, i);
  }

  lemma HandlerAgent(c: Config, s: State, l: Label)
    requires Enabled(s, l) && (l.HandleOk? || l.MarkOk? || l.MarkFail?)
    ensures Do(c, s, l).acts[l.i].agent == s.acts[l.i].agent
  {
  }

  /** Flags and ended program counters hold no more than before. */
  ghost predicate Wanes(a: Act, b: Act) {
    && b.agent == a.agent && b.received == a.received && b.overflow == a.overflow && b.missed == a.missed
    && (b.pc == a.pc || b.pc == Exiting || b.pc == Gone)
  }

  lemma WaningHoldsLess(a: Act, b: Act)
    requires Wanes(a, b)
    ensures forall id :: Held(b, id) ==> Held(a, id)
  {
    assert forall id :: Got(b, id) ==> Got(a, id);
  }

  lemma AllWane(s: State, t: State)
    requires |t.acts| == |s.acts| && forall i :: 0 <= i < |s.acts| ==> Wanes(s.acts[i], t.acts[i])
    requires forall g :: g in t.resident ==> g in s.resident && t.resident[g] == s.resident[g]
    requires t.inflight <= s.inflight && forall id :: id in t.waiting ==> id in s.waiting || id in s.inflight
    ensures HoldsLess(s, t)
  {
    hide Held;
    forall i | 0 <= i < |s.acts| ensures forall id :: Held(t.acts[i], id) ==> Held(s.acts[i], id) {
      WaningHoldsLess(s.acts[i], t.acts[i]);
    }
  }

  lemma PassivateKeepsFates(s: State, i: nat)
    requires FatesOk(s) && i < |s.acts|
    ensures FatesOk(Passivate(s, i))
  {
    var t := Passivate(s, i);
    var a := s.acts[i];
    AllWane(s, t);
    forall id | id in t.owed ensures GivesUp(s, t, id) {
      if id in a.missed {
        assert Held(a, id) && HeldOk(s, i, id);
      }
    }
    FatesKept(s, t);
  }

  lemma DeregisterKeepsFates(s: State, i: nat)
    requires FatesOk(s) && i < |s.acts|
    ensures FatesOk(SetAct(Unregister(s, i), i, s.acts[i].(pc := Gone)))
  {
    var t := SetAct(Unregister(s, i), i, s.acts[i].(pc := Gone));
    AllWane(s, t);
    FatesKept(s, t);
  }

  lemma CrashKeepsFates(s: State)
    requires FatesOk(s)
    ensures FatesOk(Crashed(s))
  {
    var t := Crashed(s);
    AllWane(s, t);
    FatesKept(s, t);
  }

  lemma FlagsKeepFates(s: State, t: State)
    requires FatesOk(s) && t == s.(acts := t.acts, closed := t.closed)
    requires |t.acts| == |s.acts| && forall i :: 0 <= i < |s.acts| ==> Wanes(s.acts[i], t.acts[i])
    ensures FatesOk(t)
  {
    AllWane(s, t);
    OwedStays(s, t);
    FatesKept(s, t);
  }

  /** Activations start empty-handed and what they reach is no longer given up. */
  lemma StartsKeepFates(s: State, t: State)
    requires FatesOk(s) && OnlyStarts(s, t) && SameFlights(s, t) && t.log == s.log && t.owed <= s.owed && OnlyNewEntries(s, t)
    ensures FatesOk(t)
  {
    forall i, id | |s.acts| <= i < |t.acts| ensures !Held(t.acts[i], id) {
      assert t.acts[i] == Started(t.acts[i].agent);
    }
    hide Held;
    assert HoldsLess(s, t);
    OwedStays(s, t);
    FatesKept(s, t);
  }

  /** A new row is held by nobody and owed to nobody. */
  lemma AppendKeepsFates(s: State, t: State, u: Update)
    requires FatesOk(s) && u.id !in s.log && t.log == Append(s.log, u) && t.acts == s.acts && t.resident == s.resident
    requires t.waiting == s.waiting && (forall id :: id in s.inflight || id in s.waiting ==> id in s.log)
    requires (t.inflight == s.inflight + {u.id} && t.owed == s.owed) || (t.inflight == s.inflight && t.owed == s.owed + {u.id})
    ensures FatesOk(t)
  {
    hide Held;
    forall i, id | 0 <= i < |t.acts| && Held(t.acts[i], id) ensures HeldOk(t, i, id) {
      assert HeldOk(s, i, id);
    }
  }

  lemma PushHolds(a: Act, u: Update, id: Text)
    ensures Held(Push(a, u), id) <==> Held(a, id) || id == u.id
  {
    var b := Push(a, u);
    if Got(a, id) {
      var p :| 0 <= p < |a.received| && a.received[p].id == id;
      assert b.received[p].id == id;
    }
    assert b.received[|a.received|].id == u.id;
    if Got(b, id) && id != u.id {
      var p :| 0 <= p < |b.received| && b.received[p].id == id;
      assert a.received[p].id == id;
    }
  }

  lemma OverflowHolds(a: Act, id: Text, x: Text)
    ensures Held(a.(overflow := a.overflow + {id}), x) <==> Held(a, x) || x == id
  {
    var b := a.(overflow := a.overflow + {id});
    assert Got(a, x) <==> Got(b, x);
  }

  /** One row passes from a Send into the hands of activation i. */
  lemma HandOver(s: State, t: State, i: nat, id: Text)
    requires FatesOk(s) && i < |s.acts| && (id in s.inflight || id in s.waiting)
    requires id in s.log && s.log[id].update.toAgent == s.acts[i].agent
    requires |t.acts| == |s.acts| && t.acts == s.acts[i := t.acts[i]] && t.acts[i].agent == s.acts[i].agent
    requires forall x :: Held(t.acts[i], x) <==> Held(s.acts[i], x) || x == id
    requires t.log == s.log && t.resident == s.resident
    requires t.inflight == s.inflight - {id} && t.waiting == s.waiting - {id}
    requires t.owed == s.owed || (t.owed == s.owed + {id} && !Registered(s, i))
    ensures FatesOk(t)
  {
    hide Held;
    forall j, x | 0 <= j < |t.acts| && Held(t.acts[j], x) ensures HeldOk(t, j, x) {
      if j != i || x != id {
        assert HeldOk(s, j, x);
      }
    }
  }

  lemma SteerKeepsFates(c: Config, s: State, id: Text, i: nat)
    requires FatesOk(s) && id in s.inflight && id !in s.waiting && id in s.log && i < |s.acts| && c.mode != Blocking
    requires s.log[id].update.id == id && s.log[id].update.toAgent == s.acts[i].agent
    ensures FatesOk(Steer(c, s.(inflight := s.inflight - {id}), i, s.log[id].update))
  {
    hide Held, FatesOk;
    var u := s.log[id].update;
    var a := s.acts[i];
    var t := Steer(c, s.(inflight := s.inflight - {id}), i, u);
    forall x ensures Held(t.acts[i], x) <==> Held(a, x) || x == id {
      PushHolds(a, u, x);
      OverflowHolds(a, id, x);
    }
    assert s.waiting - {id} == s.waiting;
    HandOver(s, t, i, id);
  }

  /** The Send gives up or parks: the id leaves the flight. */
  lemma LandKeepsFates(s: State, t: State, id: Text)
    requires FatesOk(s) && (id in s.inflight || id in s.waiting) && id in s.log
    requires t.log == s.log && t.acts == s.acts && t.resident == s.resident && t.inflight == s.inflight - {id}
    requires (t.owed == s.owed + {id} && t.waiting == s.waiting - {id})
             || (t.owed == s.owed && t.waiting.Keys == s.waiting.Keys + {id})
             || (t.owed == s.owed && t.waiting == s.waiting)
    requires forall x :: x in t.waiting ==> x in s.waiting || x in s.inflight
    ensures FatesOk(t)
  {
    hide Held;
    forall x | x in t.owed ensures GivesUp(s, t, x) {
    }
    assert HoldsLess(s, t);
    FatesKept(s, t);
  }

  lemma NotParked(c: Config, s: State, id: Text)
    requires Inv(c, s) && id in s.inflight
    ensures id !in s.waiting
  {
  }

  lemma ParkKeepsFates(c: Config, s: State, id: Text, i: nat)
    requires FatesOk(s) && id in s.inflight && id in s.log && s.log[id].update.id == id && i < |s.acts| && c.mode == Blocking
    ensures FatesOk(Steer(c, s.(inflight := s.inflight - {id}), i, s.log[id].update))
  {
    hide FatesOk;
    LandKeepsFates(s, Steer(c, s.(inflight := s.inflight - {id}), i, s.log[id].update), id);
  }

  lemma SendStarts(s: State, id: Text, g: Text)
    requires FatesOk(s) && id in s.inflight && id in s.log
    ensures FatesOk(Activate(s.(inflight := s.inflight - {id}), g))
  {
    hide FatesOk;
    var s1 := s.(inflight := s.inflight - {id});
    LandKeepsFates(s, s1, id);
    StartsKeepFates(s1, Activate(s1, g));
  }

  lemma DeliverKeepsFates(c: Config, s: State, id: Text)
    requires FatesOk(s) && Inv(c, s) && id in s.inflight && id in s.log
    ensures FatesOk(Deliver(c, s, s.log[id].update))
  {
    hide FatesOk, Inv, Steer, Activate, CapReached;
    FlightFacts(c, s, id);
    NotParked(c, s, id);
    var u := s.log[id].update;
    var g := u.toAgent;
    if s.closed || (!Live(s, g) && CapReached(c, s)) {
      CapIgnoresFlight(c, s, id);
      LandKeepsFates(s, Deliver(c, s, u), id);
    } else if !Live(s, g) {
      CapIgnoresFlight(c, s, id);
      SendStarts(s, id, g);
    } else if c.mode == Blocking {
      ParkKeepsFates(c, s, id, s.resident[g]);
    } else {
      SteerKeepsFates(c, s, id, s.resident[g]);
    }
  }

  lemma CapIgnoresFlight(c: Config, s: State, id: Text)
    ensures CapReached(c, s.(inflight := s.inflight - {id})) == CapReached(c, s)
  {
  }

  lemma UnparkKeepsFates(c: Config, s: State, id: Text)
    requires FatesOk(s) && Inv(c, s) && id in s.waiting && id in s.log && s.waiting[id] < |s.acts|
    ensures FatesOk(Unpark(c, s, id))
  {
    var i := s.waiting[id];
    var u := s.log[id].update;
    assert u.id == id && u.toAgent == s.acts[i].agent && id !in s.inflight;
    hide Inv, FatesOk;
    if |s.acts[i].mailbox| < c.capacity {
      var t := Unpark(c, s, id);
      forall x ensures Held(t.acts[i], x) <==> Held(s.acts[i], x) || x == id {
        PushHolds(s.acts[i], u, x);
      }
      assert s.inflight - {id} == s.inflight;
      HandOver(s, t, i, id);
    }
  }

  lemma InFlightIsLogged(c: Config, s: State)
    requires Inv(c, s)
    ensures forall id :: id in s.inflight || id in s.waiting ==> id in s.log
  {
  }

  lemma QuietKeepsFates(s: State, t: State)
    requires FatesOk(s) && t == s.(ready := t.ready, sweeps := t.sweeps, accepted := t.accepted)
    ensures FatesOk(t)
  {
    assert HoldsLess(s, t);
    OwedStays(s, t);
    FatesKept(s, t);
  }

  lemma StopWanes(s: State)
    ensures |Stopped(s).acts| == |s.acts| && forall i :: 0 <= i < |s.acts| ==> Wanes(s.acts[i], Stopped(s).acts[i])
    ensures Stopped(s) == s.(acts := Stopped(s).acts, closed := true)
  {
  }

  lemma ActsAreOk(c: Config, s: State)
    requires Inv(c, s)
    ensures ActsOk(s)
  {
  }

  lemma PausedKeepsFates(c: Config, s: State, u: Update)
    requires Inv(c, s) && FatesOk(s)
    ensures FatesOk(Paused(s, u))
  {
    hide Inv, FatesOk;
    InFlightIsLogged(c, s);
    if u.id in s.log {
      QuietKeepsFates(s, Paused(s, u));
    } else {
      AppendKeepsFates(s, Paused(s, u), u);
    }
  }

  lemma AppendedKeepsFates(c: Config, s: State, u: Update)
    requires Inv(c, s) && FatesOk(s)
    ensures FatesOk(Appended(s, u))
  {
    hide Inv, FatesOk;
    InFlightIsLogged(c, s);
    if u.id !in s.log {
      AppendKeepsFates(s, Appended(s, u), u);
    }
  }

  lemma SweptKeepsFates(c: Config, s: State, k: nat)
    requires FatesOk(s) && k < |s.sweeps|
    ensures FatesOk(Swept(c, s, k))
  {
    hide FatesOk, Swept;
    SweptFrame(c, s, k);
    StartsKeepFates(s, Swept(c, s, k));
  }

  lemma EvictKeepsFates(s: State, i: nat)
    requires FatesOk(s) && i < |s.acts|
    ensures FatesOk(SetAct(s, i, s.acts[i].(evicted := true)))
  {
    hide FatesOk;
    FlagsKeepFates(s, SetAct(s, i, s.acts[i].(evicted := true)));
  }

  lemma StoppedKeepsFates(s: State)
    requires FatesOk(s)
    ensures FatesOk(Stopped(s))
  {
    hide FatesOk, Stopped;
    StopWanes(s);
    FlagsKeepFates(s, Stopped(s));
  }

  lemma StepKeepsFates(c: Config, s: State, l: Label)
    requires Inv(c, s) && FatesOk(s)
    ensures FatesOk(Step(c, s, l))
  {
    hide Inv, FatesOk, Paused, Appended, Deliver, Unpark, Swept, Stopped, Local, Passivate, Unregister, Crashed;
    if Enabled(s, l) {
      match l
      case DispatchPaused(u) => PausedKeepsFates(c, s, u);
      case Release => QuietKeepsFates(s, s.(ready := true));
      case SendAppend(u) => AppendedKeepsFates(c, s, u);
      case SendLock(id) => DeliverKeepsFates(c, s, id);
      case BlockedDeliver(id) => UnparkKeepsFates(c, s, id);
      case BlockedTimeout(id) => TimeoutKeepsFates(c, s, id);
      case SweepQuery(agents) => QuietKeepsFates(s, s.(sweeps := s.sweeps + [agents]));
      case SweepLock(k) => SweptKeepsFates(c, s, k);
      case Evict(g) => EvictKeepsFates(s, s.resident[g]);
      case Stop => StoppedKeepsFates(s);
      case Own(i, e) =>
        ActsAreOk(c, s);
        OwnKeepsFates(s, i, e);
      case HandleOk(_, _) => HandlerKeepsFates(c, s, l);
      case MarkOk(_) => HandlerKeepsFates(c, s, l);
      case MarkFail(_, _) => HandlerKeepsFates(c, s, l);
      case IdleSave(i) => PassivateKeepsFates(s, i);
      case Deregister(i) => DeregisterKeepsFates(s, i);
      case Crash => CrashKeepsFates(s);
    }
  }

  lemma TimeoutKeepsFates(c: Config, s: State, id: Text)
    requires FatesOk(s) && Inv(c, s) && id in s.waiting
    ensures FatesOk(s.(waiting := s.waiting - {id}, owed := s.owed + {id}))
  {
    assert id in s.log && s.inflight - {id} == s.inflight;
    hide FatesOk, Inv;
    LandKeepsFates(s, s.(waiting := s.waiting - {id}, owed := s.owed + {id}), id);
  }

  lemma {:induction false} ReachableFates(c: Config, ls: seq<Label>)
    requires c.Ok()
    ensures FatesOk(Exec(c, Init(), ls))
    decreases |ls|
  {
    hide Step, Inv;
    if ls != [] {
      ReachableFates(c, ls[..|ls| - 1]);
      ReachableInv(c, ls[..|ls| - 1]);
      StepKeepsFates(c, Exec(c, Init(), ls[..|ls| - 1]), ls[|ls| - 1]);
    }
  }

  // ------------------------------------------------------------------- passivation

  /** Nobody will reach the row without a sweep or another Send to its agent. */
  predicate Abandoned(s: State, g: Text, id: Text) {
    Pending(s.log, g, id) && g !in s.resident && id !in s.inflight && id !in s.waiting
  }

  /** Passivation abandons a pending row exactly in three cases: the activation
      missed it in its cold drain, an earlier step had already given it up, or the
      activation passivates behind a deferred head and no Send is delivering the row. */
  lemma PassivationLeavesExactly(c: Config, ls: seq<Label>, i: nat, id: Text)
    requires c.Ok() && Enabled(Exec(c, Init(), ls), IdleSave(i))
    ensures var s := Exec(c, Init(), ls); var a := s.acts[i];
            Abandoned(Step(c, s, IdleSave(i)), a.agent, id) <==>
            Pending(s.log, a.agent, id) && (id in a.missed || id in s.owed || (a.deferred && id in Unspoken(s, a.agent)))
  {
    hide Exec, ActsOk, DeliveryOk, HandledOk, SnapshotsOk;
    ReachableInv(c, ls);
    ReachableFates(c, ls);
    var s := Exec(c, Init(), ls);
    var a := s.acts[i];
    assert Registered(s, i);
    if id in a.missed {
      assert Held(a, id) && HeldOk(s, i, id);
    }
    if Pending(s.log, a.agent, id) && id !in s.inflight && id !in s.waiting && id !in s.owed {
      assert Covers(a, id);
    }
  }

  /** What a step of its own goroutine, or a crash, makes of activation i. */
  function OwnResult(s: State, l: Label, i: nat): Act
    requires i < |s.acts| && !Foreign(l, i) && Enabled(s, l)
  {
    var a := s.acts[i];
    match l
    case Own(_, e) => Local(s.snapshots, a, e)
    case HandleOk(_, next) => HandleOkAct(a, next)
    case MarkOk(_) => MarkOkAct(i, a)
    case MarkFail(_, applied) => MarkFailAct(a, applied)
    case IdleSave(_) => a.(pc := Exiting, saved := true)
    case _ => a.(pc := Gone)
  }

  lemma OwnStep(c: Config, s: State, l: Label, i: nat)
    requires i < |s.acts| && !Foreign(l, i) && Enabled(s, l)
    ensures i < |Step(c, s, l).acts| && Step(c, s, l).acts[i] == OwnResult(s, l, i)
  {
    hide Local, HandleOkAct, MarkOkAct, MarkFailAct, MarkProcessed, Unspoken;
  }

  /** Any step either spares the activation or is its own. */
  lemma StepOfAct(c: Config, s: State, l: Label, i: nat)
    requires i < |s.acts|
    ensures i < |Step(c, s, l).acts|
    ensures Foreign(l, i) || !Enabled(s, l) ==> SamePlace(s.acts[i], Step(c, s, l).acts[i])
    ensures !Foreign(l, i) && Enabled(s, l) ==> Step(c, s, l).acts[i] == OwnResult(s, l, i)
  {
    hide Do, OwnResult;
    if Foreign(l, i) {
      ForeignSpares(c, s, l, i);
    } else if Enabled(s, l) {
      OwnStep(c, s, l, i);
    }
  }

  lemma WorkMisses(snapshots: map<Text, Memory>, a: Act, e: Event, id: Text)
    requires id !in a.missed && id in WorkStep(snapshots, a, e).missed
    ensures e == HandleFail && ColdPhase(a) && InHand(a, id)
  {
  }

  lemma LoopMisses(a: Act, e: Event, id: Text)
    requires id !in a.missed && id in LoopStep(a, e).missed
    ensures e == ColdEmpty && ColdPhase(a) && id in a.overflow
  {
  }

  /** Only the cold drain makes an activation miss a row: its handler call or its
      mark failed there, or it overflowed the mailbox before the drain ended. */
  lemma MissedOnlyInColdDrain(c: Config, s: State, l: Label, i: nat, id: Text)
    requires i < |s.acts| && id !in s.acts[i].missed
    requires i < |Step(c, s, l).acts| && id in Step(c, s, l).acts[i].missed
    ensures ColdPhase(s.acts[i])
    ensures || (InHand(s.acts[i], id) && (l == Own(i, HandleFail) || l == MarkFail(i, false)))
            || (l == Own(i, ColdEmpty) && id in s.acts[i].overflow)
  {
    hide Step, WorkStep, LoopStep;
    StepOfAct(c, s, l, i);
    if l.Own? {
      if IsLoopEvent(l.e) {
        LoopMisses(s.acts[i], l.e, id);
      } else {
        WorkMisses(s.snapshots, s.acts[i], l.e, id);
      }
    }
  }

  lemma LocalDefers(snapshots: map<Text, Memory>, a: Act, e: Event)
    requires !a.deferred && Local(snapshots, a, e).deferred
    ensures e == HandleDefer && a.pc.Handling?
  {
  }

  /** Only the handler defers. */
  lemma DeferredOnlyByHandler(c: Config, s: State, l: Label, i: nat)
    requires i < |s.acts| && !s.acts[i].deferred
    requires i < |Step(c, s, l).acts| && Step(c, s, l).acts[i].deferred
    ensures l == Own(i, HandleDefer) && s.acts[i].pc.Handling?
  {
    hide Step, Local;
    StepOfAct(c, s, l, i);
    if l.Own? {
      LocalDefers(s.snapshots, s.acts[i], l.e);
    }
  }

  // --------------------------------------------------------- where memory comes from

  ghost predicate SavedWith(s: State, j: nat, g: Text, m: Memory) {
    j < |s.acts| && s.acts[j].agent == g && s.acts[j].saved && s.acts[j].memory == m
  }

  /** The activation started from nothing or from what another one of its agent saved. */
  ghost predicate Inherits(s: State, i: nat)
    requires i < |s.acts|
  {
    s.acts[i].initial == [] || exists j: nat :: j != i && SavedWith(s, j, s.acts[i].agent, s.acts[i].initial)
  }

  ghost predicate AllInherit(s: State) {
    forall i :: 0 <= i < |s.acts| ==> Inherits(s, i)
  }

  /** A saved activation has ended, so its own steps no longer touch its memory. */
  lemma SavedStays(c: Config, s: State, l: Label, j: nat, g: Text, m: Memory)
    requires ActsOk(s) && SavedWith(s, j, g, m)
    ensures SavedWith(Step(c, s, l), j, g, m)
  {
    ActIsOk(s, j);
    hide ActsOk, Step, Local;
    StepOfAct(c, s, l, j);
    if l.Own? {
      EndedStays(s.snapshots, s.acts[j], l.e);
    }
  }

  lemma EndedStays(snapshots: map<Text, Memory>, a: Act, e: Event)
    requires a.pc.Exiting? || a.pc.Gone?
    ensures var b := Local(snapshots, a, e); b.agent == a.agent && b.saved == a.saved && b.memory == a.memory
  {
  }

  lemma LocalInitial(snapshots: map<Text, Memory>, a: Act, e: Event)
    ensures var b := Local(snapshots, a, e); b.agent == a.agent && (!e.Load? ==> b.initial == a.initial)
    ensures var b := Local(snapshots, a, e);
            || b.initial == a.initial || b.initial == []
            || (a.pc.Loading? && a.agent in snapshots && b.initial == snapshots[a.agent])
  {
    hide LoopStep;
    if IsLoopEvent(e) {
      LoopInitial(a, e);
    } else if !e.Load? {
      WorkInitial(snapshots, a, e);
    }
  }

  lemma LoopInitial(a: Act, e: Event)
    ensures LoopStep(a, e).agent == a.agent && LoopStep(a, e).initial == a.initial
  {
  }

  lemma WorkInitial(snapshots: map<Text, Memory>, a: Act, e: Event)
    requires !e.Load?
    ensures WorkStep(snapshots, a, e).agent == a.agent && WorkStep(snapshots, a, e).initial == a.initial
  {
  }

  /** How one step can change the memory an activation started from. */
  lemma InitialMoves(c: Config, s: State, l: Label, i: nat)
    requires i < |s.acts|
    ensures var t := Step(c, s, l); i < |t.acts| && t.acts[i].agent == s.acts[i].agent
    ensures var t := Step(c, s, l); var a := s.acts[i];
            || t.acts[i].initial == a.initial || t.acts[i].initial == []
            || (a.pc.Loading? && a.agent in s.snapshots && t.acts[i].initial == s.snapshots[a.agent])
  {
    hide Step, Local;
    StepOfAct(c, s, l, i);
    if l.Own? {
      LocalInitial(s.snapshots, s.acts[i], l.e);
    }
  }

  /** New activations start with no memory at all. */
  lemma NewStartsEmpty(c: Config, s: State, l: Label, i: nat)
    requires |s.acts| <= i < |Step(c, s, l).acts|
    ensures Step(c, s, l).acts[i].initial == []
  {
    hide Swept, Local, MarkOkAct, MarkFailAct, HandleOkAct;
    if l.SweepLock? && Enabled(s, l) {
      SweptFrame(c, s, l.k);
    }
  }

  lemma StepKeepsInheritance(c: Config, s: State, l: Label, i: nat)
    requires Inv(c, s) && AllInherit(s) && i < |Step(c, s, l).acts|
    ensures Inherits(Step(c, s, l), i)
  {
    hide Step, ActsOk, RegistryOk, DeliveryOk, CoverOk, HandledOk, SavedWith;
    var t := Step(c, s, l);
    if i >= |s.acts| {
      NewStartsEmpty(c, s, l, i);
    } else {
      InitialMoves(c, s, l, i);
      var g := s.acts[i].agent;
      assert Inherits(s, i);
      if t.acts[i].initial != [] && t.acts[i].initial == s.acts[i].initial {
        var j: nat :| j != i && SavedWith(s, j, g, s.acts[i].initial);
        SavedStays(c, s, l, j, g, s.acts[i].initial);
      } else if t.acts[i].initial != [] {
        var j: nat :| SavedBy(s, g, j);
        SavedIsOther(s, i, j, g);
        SavedStays(c, s, l, j, g, s.snapshots[g]);
      }
    }
  }

  lemma SavedIsOther(s: State, i: nat, j: nat, g: Text)
    requires ActsOk(s) && i < |s.acts| && s.acts[i].pc.Loading? && g in s.snapshots && SavedBy(s, g, j)
    ensures j != i && SavedWith(s, j, g, s.snapshots[g])
  {
    ActIsOk(s, i);
    hide ActsOk;
  }

  /** Memory has a history: whatever interleaving, crash or failed load, every
      activation started from nothing or from the memory that another activation
      of the same agent passivated with. */
  lemma {:induction false} MemoryIsInherited(c: Config, ls: seq<Label>)
    requires c.Ok()
    ensures AllInherit(Exec(c, Init(), ls))
    decreases |ls|
  {
    hide Step, Inv, Inherits;
    if ls != [] {
      var s := Exec(c, Init(), ls[..|ls| - 1]);
      var l := ls[|ls| - 1];
      MemoryIsInherited(c, ls[..|ls| - 1]);
      ReachableInv(c, ls[..|ls| - 1]);
      forall i | 0 <= i < |Step(c, s, l).acts| ensures Inherits(Step(c, s, l), i) {
        StepKeepsInheritance(c, s, l, i);
      }
    }
  }
}
