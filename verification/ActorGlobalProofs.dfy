/** The steps that touch the registry, the mailboxes of others, or the whole process. */
module ActorGlobalProofs {
  import opened Updates
  import opened ActorProtocol
  import opened ActorInvariants
  import opened ActorStepProofs

  // ------------------------------------------------------------------- frames

  /** No activation forgets what it received or saved; new ones start empty. */
  ghost predicate KeepsHistory(s: State, t: State) {
    && |s.acts| <= |t.acts|
    && (forall i :: 0 <= i < |s.acts| ==>
          && t.acts[i].agent == s.acts[i].agent && t.acts[i].received == s.acts[i].received
          && (s.acts[i].saved ==> t.acts[i].saved && t.acts[i].memory == s.acts[i].memory))
    && (forall i :: |s.acts| <= i < |t.acts| ==> t.acts[i].received == [])
  }

  lemma DeliveryKept(s: State, t: State)
    requires DeliveryOk(s) && KeepsHistory(s, t) && Extends(s.log, t.log)
    requires t.inflight <= s.inflight
    requires forall id :: id in t.waiting ==> id in s.waiting && t.waiting[id] == s.waiting[id]
    ensures DeliveryOk(t)
  {
    forall i: nat, p: nat, id | At(t, i, p, id) ensures At(s, i, p, id) {
    }
  }

  lemma SnapshotsKept(s: State, t: State)
    requires SnapshotsOk(s) && KeepsHistory(s, t) && t.snapshots == s.snapshots
    ensures SnapshotsOk(t)
  {
    forall g | g in t.snapshots ensures exists j :: SavedBy(t, g, j) {
      var j :| SavedBy(s, g, j);
      assert SavedBy(t, g, j);
    }
  }

  lemma HandledKept(s: State, t: State)
    requires HandledOk(s) && t.log == s.log && t.calls == s.calls
    ensures HandledOk(t)
  {
  }

  /** Activations may only stop running or become evicted. */
  ghost predicate KeepsStatus(s: State, t: State) {
    && |t.acts| == |s.acts|
    && forall i :: 0 <= i < |s.acts| ==>
         && t.acts[i].agent == s.acts[i].agent
         && (Running(t.acts[i]) && !t.acts[i].evicted ==> Running(s.acts[i]) && !s.acts[i].evicted)
         && (t.acts[i].pc.Gone? ==> s.acts[i].pc.Gone?)
  }

  lemma RegistryKept(c: Config, s: State, t: State)
    requires RegistryOk(c, s) && t.resident == s.resident && KeepsStatus(s, t)
    ensures RegistryOk(c, t)
  {
  }

  /** Every part but coverage, for steps that leave log, calls and accepted alone. */
  ghost predicate Base(c: Config, s: State) {
    && LogOk(s.log) && ActsOk(s) && RegistryOk(c, s) && DeliveryOk(s) && HandledOk(s) && SnapshotsOk(s)
    && s.accepted <= s.log.Keys
  }

  lemma BaseKept(c: Config, s: State, t: State)
    requires Base(c, s)
    requires t.log == s.log && t.acts == s.acts && t.resident == s.resident && t.calls == s.calls
    requires t.snapshots == s.snapshots && t.accepted <= t.log.Keys
    requires t.inflight <= s.inflight
    requires forall id :: id in t.waiting ==> id in s.waiting && t.waiting[id] == s.waiting[id]
    ensures Base(c, t)
  {
    hide ActOk, RegistryOk, DeliveryOk, CoverOk, HandledOk, SnapshotsOk, Covers;
    DeliveryKept(s, t);
    SnapshotsKept(s, t);
    RegistryKept(c, s, t);
    HandledKept(s, t);
  }

  // ------------------------------------------------------------------ appends

  lemma AppendKeepsDelivery(s: State, t: State, u: Update)
    requires DeliveryOk(s) && ActsOk(s) && u.id !in s.log
    requires t.log == Append(s.log, u) && t.acts == s.acts && t.waiting == s.waiting
    requires s.inflight <= t.inflight <= s.inflight + {u.id}
    ensures DeliveryOk(t)
  {
    forall i: nat, p: nat, id | At(t, i, p, id) ensures At(s, i, p, id) && id != u.id {
      assert MailOk(s.log, s.acts[i]);
    }
  }

  lemma AppendKeepsCover(s: State, t: State, u: Update)
    requires CoverOk(s) && u.id !in s.log
    requires t.log == Append(s.log, u) && t.acts == s.acts && t.waiting == s.waiting && t.resident == s.resident
    requires s.inflight <= t.inflight && s.owed <= t.owed && u.id in t.inflight + t.owed
    ensures CoverOk(t)
  {
  }

  lemma AppendKeepsHandled(s: State, t: State, u: Update)
    requires HandledOk(s) && u.id !in s.log && t.log == Append(s.log, u) && t.calls == s.calls
    ensures HandledOk(t)
  {
  }

  lemma AppendKeepsActs(s: State, t: State, u: Update)
    requires ActsOk(s) && t.log == Append(s.log, u) && t.calls == s.calls && t.acts == s.acts
    ensures ActsOk(t)
  {
    forall j | 0 <= j < |t.acts| ensures ActOk(t.log, t.calls, j, t.acts[j]) {
      ActOkMonotone(s.log, t.log, s.calls, t.calls, j, s.acts[j]);
    }
  }

  /** A new row enters the log, in flight or owed. */
  lemma AppendKeepsInv(c: Config, s: State, t: State, u: Update)
    requires Inv(c, s) && u.id !in s.log && u.id != []
    requires t == s.(log := Append(s.log, u), inflight := t.inflight, owed := t.owed, accepted := t.accepted)
    requires s.inflight <= t.inflight <= s.inflight + {u.id} && s.owed <= t.owed && u.id in t.inflight + t.owed
    requires t.accepted <= s.accepted + {u.id}
    ensures Inv(c, t)
  {
    hide ActsOk, RegistryOk, CoverOk, HandledOk, SnapshotsOk, Covers;
    AppendKeepsActs(s, t, u);
    AppendKeepsDelivery(s, t, u);
    AppendKeepsCover(s, t, u);
    AppendKeepsHandled(s, t, u);
    SnapshotsKept(s, t);
    RegistryKept(c, s, t);
  }

  // --------------------------------------------------------------- activation

  /** Every pending row of another agent is covered. */
  ghost predicate CoverElsewhere(s: State, agent: Text) {
    forall g, id :: Pending(s.log, g, id) && g != agent && id !in s.inflight && id !in s.waiting && id !in s.owed ==>
      g in s.resident && s.resident[g] < |s.acts| && Covers(s.acts[s.resident[g]], id)
  }

  lemma ElsewhereCovered(s: State, agent: Text)
    requires CoverOk(s)
    ensures CoverElsewhere(s, agent)
  {
  }

  lemma ElsewhereLanded(s: State, t: State, id: Text)
    requires CoverOk(s) && id in s.log && t == s.(inflight := s.inflight - {id})
    ensures CoverElsewhere(t, s.log[id].update.toAgent)
  {
  }

  lemma ResidentAgent(c: Config, s: State, g: Text)
    requires RegistryOk(c, s) && g in s.resident
    ensures s.resident[g] < |s.acts| && s.acts[s.resident[g]].agent == g
  {
  }

  lemma ActivateKeepsRegistry(c: Config, s: State, g: Text)
    requires RegistryOk(c, s) && !Live(s, g) && !CapReached(c, s)
    ensures RegistryOk(c, Activate(s, g))
  {
    var t := Activate(s, g);
    forall j | 0 <= j < |t.acts| && Running(t.acts[j]) && !t.acts[j].evicted ensures Registered(t, j) {
      if j < |s.acts| {
        assert Registered(s, j);
      }
    }
  }

  lemma ActivateKeepsCover(s: State, g: Text)
    requires CoverElsewhere(s, g)
    ensures CoverOk(Activate(s, g))
  {
  }

  lemma StartedOk(log: Log, calls: set<Call>, i: nat, g: Text)
    ensures ActOk(log, calls, i, Started(g))
  {
    var a := Started(g);
    assert a.received[0..] == [];
    assert MailOk(log, a) && SkipOk(log, a) && FoldOk(calls, i, a) && PcOk(log, calls, i, a);
  }

  lemma ActivateKeepsActs(s: State, g: Text)
    requires ActsOk(s)
    ensures ActsOk(Activate(s, g))
  {
    hide ActOk;
    var t := Activate(s, g);
    StartedOk(s.log, s.calls, |s.acts|, g);
    forall j | 0 <= j < |t.acts| ensures ActOk(t.log, t.calls, j, t.acts[j]) {
      assert t.acts[j] == if j < |s.acts| then s.acts[j] else Started(g);
    }
  }

  lemma ActivateKeepsInv(c: Config, s: State, g: Text)
    requires Base(c, s) && CoverElsewhere(s, g) && !Live(s, g) && !CapReached(c, s)
    ensures Inv(c, Activate(s, g))
  {
    hide ActOk, RegistryOk, DeliveryOk, CoverOk, HandledOk, SnapshotsOk, Covers;
    var t := Activate(s, g);
    ActivateKeepsRegistry(c, s, g);
    DeliveryKept(s, t);
    ActivateKeepsCover(s, g);
    ActivateKeepsActs(s, g);
    SnapshotsKept(s, t);
    HandledKept(s, t);
  }

  lemma {:induction false} SweepAllKeepsInv(c: Config, s: State, agents: seq<Text>)
    requires Inv(c, s)
    ensures Inv(c, SweepAll(c, s, agents))
    decreases |agents|
  {
    hide ActsOk, RegistryOk, CoverOk, HandledOk, SnapshotsOk, DeliveryOk, Covers;
    if agents != [] {
      if agents[0] in s.resident {
        SweepAllKeepsInv(c, s, agents[1..]);
      } else if !CapReached(c, s) {
        ElsewhereCovered(s, agents[0]);
        ActivateKeepsInv(c, s, agents[0]);
        SweepAllKeepsInv(c, Activate(s, agents[0]), agents[1..]);
      }
    }
  }

  // ----------------------------------------------------------------- delivery

  lemma PushKeepsActOk(log: Log, calls: set<Call>, i: nat, a: Act, u: Update)
    requires ActOk(log, calls, i, a) && Stored(log, u) && u.toAgent == a.agent
    ensures ActOk(log, calls, i, Push(a, u))
  {
  }

  lemma PushCovers(a: Act, u: Update, id: Text)
    requires Covers(a, id) || id == u.id
    ensures Covers(Push(a, u), id)
  {
    var b := Push(a, u);
    if InMail(a, id) {
      var k :| 0 <= k < |a.mailbox| && a.mailbox[k].id == id;
      assert b.mailbox[k].id == id;
    }
    assert b.mailbox[|a.mailbox|].id == u.id;
  }

  /** The id moves from a Send to the end of one mailbox. */
  lemma PushKeepsDelivery(s: State, t: State, i: nat, u: Update)
    requires DeliveryOk(s) && i < |s.acts| && (u.id in s.inflight || u.id in s.waiting)
    requires t.acts == s.acts[i := Push(s.acts[i], u)] && t.log == s.log
    requires t.inflight == s.inflight - {u.id} && t.waiting == s.waiting - {u.id}
    ensures DeliveryOk(t)
  {
    forall j: nat, p: nat, id | At(t, j, p, id)
      ensures (id == u.id && j == i && p == |s.acts[i].received|) || (At(s, j, p, id) && id != u.id)
    {
      if j != i || p < |s.acts[i].received| {
        assert At(s, j, p, id);
      }
    }
  }

  lemma PushKeepsCover(s: State, t: State, i: nat, u: Update)
    requires CoverOk(s) && i < |s.acts| && u.id in s.log && s.log[u.id].update.toAgent == s.acts[i].agent
    requires t.acts == s.acts[i := Push(s.acts[i], u)] && t.log == s.log && t.resident == s.resident
    requires t.inflight == s.inflight - {u.id} && t.waiting == s.waiting - {u.id} && s.owed <= t.owed
    requires Registered(s, i) || u.id in t.owed
    ensures CoverOk(t)
  {
    forall g, id | Pending(t.log, g, id) && id !in t.inflight && id !in t.waiting && id !in t.owed
      ensures g in t.resident && t.resident[g] < |t.acts| && Covers(t.acts[t.resident[g]], id)
    {
      if id == u.id || s.resident[g] == i {
        PushCovers(s.acts[i], u, id);
      }
    }
  }

  lemma PushKeepsInv(c: Config, s: State, t: State, i: nat, u: Update)
    requires Inv(c, s) && i < |s.acts| && (u.id in s.inflight || u.id in s.waiting)
    requires Stored(s.log, u) && u.toAgent == s.acts[i].agent
    requires t == s.(acts := s.acts[i := Push(s.acts[i], u)], inflight := s.inflight - {u.id},
                     waiting := s.waiting - {u.id}, owed := t.owed)
    requires s.owed <= t.owed && (Registered(s, i) || u.id in t.owed)
    ensures Inv(c, t)
  {
    hide RegistryOk, DeliveryOk, CoverOk, HandledOk, SnapshotsOk, Covers, ActOk;
    PushKeepsActOk(s.log, s.calls, i, s.acts[i], u);
    ActsMove(s, t, i);
    PushKeepsDelivery(s, t, i, u);
    PushKeepsCover(s, t, i, u);
    RegistryKept(c, s, t);
    PushKeepsSnapshots(s, t, i, u);
    HandledKept(s, t);
  }

  lemma PushKeepsSnapshots(s: State, t: State, i: nat, u: Update)
    requires SnapshotsOk(s) && i < |s.acts| && t.acts == s.acts[i := Push(s.acts[i], u)] && t.snapshots == s.snapshots
    ensures SnapshotsOk(t)
  {
    forall g | g in t.snapshots ensures exists j :: SavedBy(t, g, j) {
      var j :| SavedBy(s, g, j);
      assert SavedBy(t, g, j);
    }
  }

  /** A Send gives up: only a later activation reaches the row. */
  lemma OweKeepsInv(c: Config, s: State, t: State, id: Text)
    requires Inv(c, s)
    requires t == s.(inflight := s.inflight - {id}, waiting := s.waiting - {id}, owed := s.owed + {id})
    ensures Inv(c, t)
  {
    hide ActsOk, RegistryOk, CoverOk, HandledOk, SnapshotsOk, Covers;
    BaseKept(c, s, t);
    OweKeepsCover(s, t, id);
  }

  lemma OweKeepsCover(s: State, t: State, id: Text)
    requires CoverOk(s) && t.log == s.log && t.acts == s.acts && t.resident == s.resident
    requires t.inflight == s.inflight - {id} && t.waiting == s.waiting - {id} && t.owed == s.owed + {id}
    ensures CoverOk(t)
  {
  }

  /** A blocking Send parks on the channel of the registered activation. */
  lemma ParkKeepsInv(c: Config, s: State, t: State, id: Text)
    requires Inv(c, s) && id in s.inflight && id in s.log && Live(s, s.log[id].update.toAgent)
    requires t == s.(inflight := s.inflight - {id}, waiting := s.waiting[id := s.resident[s.log[id].update.toAgent]])
    ensures Inv(c, t)
  {
    hide ActOk, RegistryOk, DeliveryOk, CoverOk, HandledOk, SnapshotsOk, Covers;
    var m := s.(inflight := s.inflight - {id});
    BaseKept(c, s, m);
    ResidentAgent(c, s, s.log[id].update.toAgent);
    ParkKeepsDelivery(s, t, id, s.resident[s.log[id].update.toAgent]);
    ParkKeepsCover(s, t, id);
    RegistryKept(c, m, t);
    SnapshotsKept(m, t);
    HandledKept(s, t);
  }

  lemma ParkKeepsDelivery(s: State, t: State, id: Text, i: nat)
    requires DeliveryOk(s) && id in s.inflight && i < |s.acts| && s.acts[i].agent == s.log[id].update.toAgent
    requires t.acts == s.acts && t.log == s.log && t.inflight == s.inflight - {id} && t.waiting == s.waiting[id := i]
    ensures DeliveryOk(t)
  {
    forall j: nat, p: nat, x | At(t, j, p, x) ensures At(s, j, p, x) {
    }
  }

  lemma ParkKeepsCover(s: State, t: State, id: Text)
    requires CoverOk(s) && t.log == s.log && t.acts == s.acts && t.resident == s.resident && t.owed == s.owed
    requires t.inflight == s.inflight - {id} && t.waiting.Keys == s.waiting.Keys + {id}
    ensures CoverOk(t)
  {
  }

  lemma OverflowKeepsActs(s: State, t: State, i: nat, id: Text)
    requires ActsOk(s) && i < |s.acts| && t.log == s.log && t.calls == s.calls
    requires t.acts == s.acts[i := s.acts[i].(overflow := s.acts[i].overflow + {id})]
    ensures ActsOk(t)
  {
  }

  lemma OverflowKeepsCover(s: State, t: State, i: nat, id: Text)
    requires CoverOk(s) && id in s.log && i < |s.acts| && s.acts[i].mailbox != []
    requires s.log[id].update.toAgent in s.resident && s.resident[s.log[id].update.toAgent] == i
    requires t.acts == s.acts[i := s.acts[i].(overflow := s.acts[i].overflow + {id})]
    requires t.log == s.log && t.resident == s.resident && t.owed == s.owed
    requires t.inflight == s.inflight - {id} && t.waiting == s.waiting
    ensures CoverOk(t)
  {
  }

  lemma OverflowFrame(s: State, t: State, i: nat, id: Text)
    requires i < |s.acts| && t.acts == s.acts[i := s.acts[i].(overflow := s.acts[i].overflow + {id})]
    ensures KeepsStatus(s, t) && KeepsHistory(s, t)
  {
  }

  lemma OverflowKeepsInv(c: Config, s: State, t: State, i: nat, id: Text)
    requires Inv(c, s) && id in s.log && i < |s.acts| && s.acts[i].mailbox != []
    requires s.log[id].update.toAgent in s.resident && s.resident[s.log[id].update.toAgent] == i
    requires t == s.(inflight := s.inflight - {id}, acts := s.acts[i := s.acts[i].(overflow := s.acts[i].overflow + {id})])
    ensures Inv(c, t)
  {
    hide ActOk, RegistryOk, DeliveryOk, CoverOk, HandledOk, SnapshotsOk, Covers;
    OverflowFrame(s, t, i, id);
    OverflowKeepsActs(s, t, i, id);
    OverflowKeepsCover(s, t, i, id);
    RegistryKept(c, s, t);
    DeliveryKept(s, t);
    SnapshotsKept(s, t);
    HandledKept(s, t);
  }

  lemma SendActivates(c: Config, s: State, id: Text)
    requires Inv(c, s) && id in s.inflight && id in s.log
    requires !Live(s, s.log[id].update.toAgent) && !CapReached(c, s)
    ensures Inv(c, Activate(s.(inflight := s.inflight - {id}), s.log[id].update.toAgent))
  {
    hide ActsOk, RegistryOk, CoverOk, HandledOk, SnapshotsOk, Covers;
    var t := s.(inflight := s.inflight - {id});
    BaseKept(c, s, t);
    ElsewhereLanded(s, t, id);
    ActivateKeepsInv(c, t, s.log[id].update.toAgent);
  }

  lemma FlightFacts(c: Config, s: State, id: Text)
    requires Inv(c, s) && id in s.inflight && id in s.log
    ensures s.waiting - {id} == s.waiting && s.log[id].update.id == id && s.accepted <= s.log.Keys
    ensures var g := s.log[id].update.toAgent;
            g in s.resident ==> s.resident[g] < |s.acts| && s.acts[s.resident[g]].agent == g
  {
  }

  lemma DeliverKeepsInv(c: Config, s: State, id: Text)
    requires c.Ok() && Inv(c, s) && id in s.inflight && id in s.log
    ensures Inv(c, Deliver(c, s, s.log[id].update))
  {
    hide Inv;
    FlightFacts(c, s, id);
    var u := s.log[id].update;
    var g := u.toAgent;
    var t := Deliver(c, s, u);
    if s.closed || (!Live(s, g) && CapReached(c, s)) {
      OweKeepsInv(c, s, t, id);
    } else if !Live(s, g) {
      SendActivates(c, s, id);
    } else if c.mode == Blocking {
      ParkKeepsInv(c, s, t, id);
    } else if |s.acts[s.resident[g]].mailbox| < c.capacity {
      PushKeepsInv(c, s, t, s.resident[g], u);
    } else {
      OverflowKeepsInv(c, s, t, s.resident[g], id);
    }
  }

  // ---------------------------------------------------- leaving the registry

  lemma RemoveKeepsRegistry(c: Config, s: State, t: State, i: nat)
    requires RegistryOk(c, s) && Registered(s, i) && i < |t.acts|
    requires t.acts == s.acts[i := t.acts[i]] && t.resident == s.resident - {s.acts[i].agent}
    requires t.acts[i].agent == s.acts[i].agent && !Running(t.acts[i])
    ensures RegistryOk(c, t)
  {
    forall j | 0 <= j < |t.acts| && Running(t.acts[j]) && !t.acts[j].evicted ensures Registered(t, j) {
      assert Registered(s, j);
    }
    assert |t.resident| <= |s.resident|;
  }

  lemma RemoveKeepsCover(s: State, t: State, i: nat)
    requires CoverOk(s) && Registered(s, i) && i < |t.acts|
    requires forall g :: g in s.resident && s.resident[g] == i ==> g == s.acts[i].agent
    requires t.acts == s.acts[i := t.acts[i]] && t.resident == s.resident - {s.acts[i].agent}
    requires t.log == s.log && t.inflight == s.inflight && t.waiting == s.waiting && s.owed <= t.owed
    requires forall id :: Pending(s.log, s.acts[i].agent, id) && id !in s.inflight && id !in s.waiting ==> id in t.owed
    ensures CoverOk(t)
  {
  }

  /** A registered activation is taken out of the map; its pending rows are owed. */
  lemma RemoveKeepsInv(c: Config, s: State, t: State, i: nat)
    requires Inv(c, s) && Registered(s, i) && i < |t.acts|
    requires t == s.(acts := s.acts[i := t.acts[i]], resident := s.resident - {s.acts[i].agent},
                     owed := t.owed, snapshots := t.snapshots)
    requires s.owed <= t.owed
    requires forall id :: Pending(s.log, s.acts[i].agent, id) && id !in s.inflight && id !in s.waiting ==> id in t.owed
    requires ActOk(t.log, t.calls, i, t.acts[i]) && !Running(t.acts[i])
    requires KeepsHistory(s, t) && SnapshotsOk(t)
    ensures Inv(c, t)
  {
    hide ActOk, RegistryOk, DeliveryOk, CoverOk, HandledOk, SnapshotsOk, Covers;
    ActsMove(s, t, i);
    RemoveKeepsRegistry(c, s, t, i);
    DeliveryKept(s, t);
    Owner(c, s, i);
    RemoveKeepsCover(s, t, i);
    HandledKept(s, t);
  }

  lemma EndKeepsActOk(log: Log, calls: set<Call>, i: nat, a: Act, b: Act)
    requires ActOk(log, calls, i, a)
    requires b == a.(pc := b.pc, saved := b.saved) && !Running(b)
    ensures ActOk(log, calls, i, b)
  {
  }

  lemma PassivateKeepsSnapshots(s: State, i: nat)
    requires SnapshotsOk(s) && i < |s.acts|
    ensures SnapshotsOk(Passivate(s, i))
  {
    var t := Passivate(s, i);
    forall g | g in t.snapshots ensures exists j :: SavedBy(t, g, j) {
      if g == s.acts[i].agent {
        assert SavedBy(t, g, i);
      } else {
        var j :| SavedBy(s, g, j);
        assert SavedBy(t, g, j);
      }
    }
  }

  /** A clean passivation owes exactly what it missed or deferred. */
  lemma PassivateOwes(c: Config, s: State, i: nat)
    requires RegistryOk(c, s) && CoverOk(s) && Enabled(s, IdleSave(i))
    ensures Registered(s, i)
    ensures forall id :: Pending(s.log, s.acts[i].agent, id) && id !in s.inflight && id !in s.waiting ==>
              id in Passivate(s, i).owed
  {
  }

  lemma PassivateFrame(s: State, i: nat)
    requires i < |s.acts|
    ensures KeepsHistory(s, Passivate(s, i))
  {
  }

  lemma IdleSaveKeepsInv(c: Config, s: State, i: nat)
    requires Inv(c, s) && Enabled(s, IdleSave(i))
    ensures Inv(c, Passivate(s, i))
  {
    hide SkipOk, FoldOk, MailOk, PcOk, DeliveryOk, CoverOk, HandledOk, SnapshotsOk, Covers;
    var t := Passivate(s, i);
    PassivateOwes(c, s, i);
    EndKeepsActOk(s.log, s.calls, i, s.acts[i], t.acts[i]);
    PassivateKeepsSnapshots(s, i);
    PassivateFrame(s, i);
    RemoveKeepsInv(c, s, t, i);
  }

  lemma DeregisterFrame(s: State, i: nat)
    requires i < |s.acts|
    ensures KeepsHistory(s, SetAct(Unregister(s, i), i, s.acts[i].(pc := Gone)))
  {
  }

  lemma ActIsOk(s: State, i: nat)
    requires ActsOk(s) && i < |s.acts|
    ensures ActOk(s.log, s.calls, i, s.acts[i])
  {
  }

  lemma StaleLeaves(c: Config, s: State, t: State, i: nat)
    requires Inv(c, s) && i < |s.acts| && !Registered(s, i) && t == s.(acts := s.acts[i := s.acts[i].(pc := Gone)])
    requires ActOk(t.log, t.calls, i, t.acts[i]) && KeepsHistory(s, t) && SnapshotsOk(t)
    ensures Inv(c, t)
  {
    hide ActOk, RegistryOk, DeliveryOk, CoverOk, HandledOk, SnapshotsOk, KeepsHistory, Registered;
    ActsMove(s, t, i);
    GoneKeepsRegistryAndCover(c, s, t, i);
    DeliveryKept(s, t);
    HandledKept(s, t);
  }

  lemma DeregisterKeepsInv(c: Config, s: State, i: nat)
    requires Inv(c, s) && Enabled(s, Deregister(i))
    ensures Inv(c, SetAct(Unregister(s, i), i, s.acts[i].(pc := Gone)))
  {
    hide ActOk, RegistryOk, DeliveryOk, CoverOk, HandledOk, SnapshotsOk, KeepsHistory;
    var t := SetAct(Unregister(s, i), i, s.acts[i].(pc := Gone));
    ActIsOk(s, i);
    EndKeepsActOk(s.log, s.calls, i, s.acts[i], t.acts[i]);
    DeregisterFrame(s, i);
    SnapshotsKept(s, t);
    hide Inv;
    if Registered(s, i) {
      RemoveKeepsInv(c, s, t, i);
    } else {
      StaleLeaves(c, s, t, i);
    }
  }

  lemma GoneKeepsRegistryAndCover(c: Config, s: State, t: State, i: nat)
    requires RegistryOk(c, s) && CoverOk(s) && i < |s.acts| && !Registered(s, i)
    requires t == s.(acts := s.acts[i := s.acts[i].(pc := Gone)])
    ensures RegistryOk(c, t) && CoverOk(t)
  {
  }

  // --------------------------------------------------- eviction, stop, crash

  ghost predicate OnlyFlags(a: Act, b: Act) {
    && b == a.(evicted := b.evicted, cancelled := b.cancelled)
    && (a.evicted ==> b.evicted) && (b.cancelled ==> b.evicted)
  }

  lemma FlagsKeepActs(s: State, t: State)
    requires ActsOk(s) && |t.acts| == |s.acts| && t.log == s.log && t.calls == s.calls
    requires forall i :: 0 <= i < |s.acts| ==> OnlyFlags(s.acts[i], t.acts[i])
    ensures ActsOk(t)
  {
  }

  lemma FlagsKeepCover(s: State, t: State)
    requires CoverOk(s) && |t.acts| == |s.acts| && t.log == s.log && t.resident == s.resident
    requires t.inflight == s.inflight && t.waiting == s.waiting && t.owed == s.owed
    requires forall i :: 0 <= i < |s.acts| ==> OnlyFlags(s.acts[i], t.acts[i])
    ensures CoverOk(t)
  {
  }

  lemma FlagsKeepInv(c: Config, s: State, t: State)
    requires Inv(c, s) && |t.acts| == |s.acts|
    requires t == s.(acts := t.acts, closed := t.closed)
    requires forall i :: 0 <= i < |s.acts| ==> OnlyFlags(s.acts[i], t.acts[i])
    ensures Inv(c, t)
  {
    hide ActOk, RegistryOk, DeliveryOk, CoverOk, HandledOk, SnapshotsOk, Covers;
    FlagsKeepActs(s, t);
    RegistryKept(c, s, t);
    DeliveryKept(s, t);
    FlagsKeepCover(s, t);
    SnapshotsKept(s, t);
    HandledKept(s, t);
  }

  lemma CrashKeepsActs(s: State)
    requires ActsOk(s)
    ensures ActsOk(Crashed(s))
  {
  }

  lemma CrashKeepsInv(c: Config, s: State)
    requires Inv(c, s)
    ensures Inv(c, Crashed(s))
  {
    hide ActsOk, DeliveryOk, HandledOk, SnapshotsOk, Covers;
    var t := Crashed(s);
    CrashKeepsActs(s);
    DeliveryKept(s, t);
    SnapshotsKept(s, t);
    HandledKept(s, t);
  }

  // ------------------------------------------------------------ the whole run

  /** Fields that no invariant but the accepted set reads. */
  lemma Relabel(c: Config, s: State, t: State)
    requires Inv(c, s)
    requires t == s.(ready := t.ready, sweeps := t.sweeps, accepted := t.accepted)
    requires t.accepted <= t.log.Keys
    ensures Inv(c, t)
  {
    hide ActOk, RegistryOk, DeliveryOk, CoverOk, HandledOk, SnapshotsOk, Covers;
    BaseKept(c, s, t);
    SameCover(s, t);
  }

  lemma SameCover(s: State, t: State)
    requires CoverOk(s) && t.log == s.log && t.acts == s.acts && t.resident == s.resident
    requires t.inflight == s.inflight && t.waiting == s.waiting && t.owed == s.owed
    ensures CoverOk(t)
  {
  }

  lemma Quiet(c: Config, s: State, t: State)
    requires Inv(c, s) && t == s.(ready := t.ready, sweeps := t.sweeps)
    ensures Inv(c, t)
  {
    Relabel(c, s, t);
  }

  lemma PausedKeepsInv(c: Config, s: State, u: Update)
    requires Inv(c, s) && u.id != []
    ensures Inv(c, Paused(s, u))
  {
    hide ActsOk, RegistryOk, CoverOk, HandledOk, SnapshotsOk, DeliveryOk, Covers;
    if u.id !in s.log {
      AppendKeepsInv(c, s, Paused(s, u), u);
    } else {
      Relabel(c, s, Paused(s, u));
    }
  }

  lemma AppendedKeepsInv(c: Config, s: State, u: Update)
    requires Inv(c, s) && u.id != []
    ensures Inv(c, Appended(s, u))
  {
    hide ActsOk, RegistryOk, CoverOk, HandledOk, SnapshotsOk, DeliveryOk, Covers;
    if u.id !in s.log {
      AppendKeepsInv(c, s, Appended(s, u), u);
    }
  }

  lemma UnparkKeepsInv(c: Config, s: State, id: Text)
    requires Inv(c, s) && id in s.waiting && id in s.log && s.waiting[id] < |s.acts|
    ensures Inv(c, Unpark(c, s, id))
  {
    hide ActsOk, RegistryOk, CoverOk, HandledOk, SnapshotsOk, Covers;
    assert s.inflight - {id} == s.inflight;
    if |s.acts[s.waiting[id]].mailbox| < c.capacity {
      PushKeepsInv(c, s, Unpark(c, s, id), s.waiting[id], s.log[id].update);
    }
  }

  lemma TimeoutKeepsInv(c: Config, s: State, id: Text)
    requires Inv(c, s) && id in s.waiting
    ensures Inv(c, s.(waiting := s.waiting - {id}, owed := s.owed + {id}))
  {
    hide ActsOk, RegistryOk, CoverOk, HandledOk, SnapshotsOk, Covers;
    assert s.inflight - {id} == s.inflight;
    OweKeepsInv(c, s, s.(waiting := s.waiting - {id}, owed := s.owed + {id}), id);
  }

  lemma SweptKeepsInv(c: Config, s: State, k: nat)
    requires Inv(c, s) && k < |s.sweeps|
    ensures Inv(c, Swept(c, s, k))
  {
    hide ActsOk, RegistryOk, CoverOk, HandledOk, SnapshotsOk, DeliveryOk, Covers;
    var t := s.(sweeps := RemoveAt(s.sweeps, k));
    Relabel(c, s, t);
    if !s.closed {
      SweepAllKeepsInv(c, t, s.sweeps[k]);
    }
  }

  lemma CancelledEvicted(s: State)
    requires ActsOk(s)
    ensures forall i :: 0 <= i < |s.acts| ==> OnlyFlags(s.acts[i], s.acts[i])
  {
  }

  lemma EvictKeepsInv(c: Config, s: State, agent: Text)
    requires Inv(c, s) && Enabled(s, Evict(agent))
    ensures Inv(c, SetAct(s, s.resident[agent], s.acts[s.resident[agent]].(evicted := true)))
  {
    hide ActsOk, RegistryOk, DeliveryOk, CoverOk, HandledOk, SnapshotsOk;
    CancelledEvicted(s);
    FlagsKeepInv(c, s, SetAct(s, s.resident[agent], s.acts[s.resident[agent]].(evicted := true)));
  }

  lemma StoppedKeepsInv(c: Config, s: State)
    requires Inv(c, s)
    ensures Inv(c, Stopped(s))
  {
    hide ActsOk, RegistryOk, DeliveryOk, CoverOk, HandledOk, SnapshotsOk;
    CancelledEvicted(s);
    FlagsKeepInv(c, s, Stopped(s));
  }

  lemma StepKeepsInv(c: Config, s: State, l: Label)
    requires c.Ok() && Inv(c, s)
    ensures Inv(c, Step(c, s, l))
  {
    hide Inv, Covers, Deliver, Unpark, SweepAll, Stopped, Local, MarkOkAct, MarkFailAct, Passivate, Unregister, Crashed;
    if Enabled(s, l) {
      match l
      case DispatchPaused(u) => PausedKeepsInv(c, s, u);
      case Release => Quiet(c, s, s.(ready := true));
      case SendAppend(u) => AppendedKeepsInv(c, s, u);
      case SendLock(id) => DeliverKeepsInv(c, s, id);
      case BlockedDeliver(id) => UnparkKeepsInv(c, s, id);
      case BlockedTimeout(id) => TimeoutKeepsInv(c, s, id);
      case SweepQuery(agents) => Quiet(c, s, s.(sweeps := s.sweeps + [agents]));
      case SweepLock(k) => SweptKeepsInv(c, s, k);
      case Evict(agent) => EvictKeepsInv(c, s, agent);
      case Stop => StoppedKeepsInv(c, s);
      case Own(i, e) => LocalKeepsInv(c, s, i, e);
      case HandleOk(i, next) => HandleOkKeepsInv(c, s, i, next);
      case MarkOk(i) => MarkOkKeepsInv(c, s, i);
      case MarkFail(i, applied) => MarkFailKeepsInv(c, s, i, applied);
      case IdleSave(i) => IdleSaveKeepsInv(c, s, i);
      case Deregister(i) => DeregisterKeepsInv(c, s, i);
      case Crash => CrashKeepsInv(c, s);
    }
  }

  /** The invariant holds after every interleaving. */
  lemma {:induction false} RunKeepsInv(c: Config, s: State, ls: seq<Label>)
    requires c.Ok() && Inv(c, s)
    ensures Inv(c, Exec(c, s, ls))
    decreases |ls|
  {
    hide Inv, Do;
    if ls != [] {
      RunKeepsInv(c, s, ls[..|ls| - 1]);
      StepKeepsInv(c, Exec(c, s, ls[..|ls| - 1]), ls[|ls| - 1]);
    }
  }

  lemma ReachableInv(c: Config, ls: seq<Label>)
    requires c.Ok()
    ensures Inv(c, Exec(c, Init(), ls))
  {
    RunKeepsInv(c, Init(), ls);
  }
}
