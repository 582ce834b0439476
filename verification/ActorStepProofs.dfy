/** Every step of the actor protocol keeps the invariant. */
module ActorStepProofs {
  import opened Updates
  import opened ActorProtocol
  import opened ActorInvariants

  // ------------------------------------------------------------- monotonicity

  lemma ActOkMonotone(log: Log, log': Log, calls: set<Call>, calls': set<Call>, i: nat, a: Act)
    requires ActOk(log, calls, i, a)
    requires Extends(log, log') && calls <= calls'
    ensures ActOk(log', calls', i, a)
  {
  }

  lemma ChainedExtends(m: Memory, cs: seq<Call>, k: Call)
    requires Chained(m, cs, k.before)
    ensures Chained(m, cs + [k], k.after)
  {
  }

  // -------------------------------------------------------------- local steps

  /** What a local step may change besides the program counter. */
  ghost predicate SameMind(a: Act, b: Act) {
    && b.skip == a.skip && b.folded == a.folded
    && ((b.initial == a.initial && b.memory == a.memory) || (a.pc.Loading? && b.initial == b.memory))
  }

  ghost predicate SameMail(a: Act, b: Act) {
    && b.received == a.received
    && (b.mailbox == a.mailbox || (a.mailbox != [] && b.mailbox == a.mailbox[1..]))
  }

  lemma FrameKeepsOk(log: Log, calls: set<Call>, i: nat, a: Act, b: Act)
    requires SkipOk(log, a) && FoldOk(calls, i, a) && MailOk(log, a) && (a.pc.Loading? ==> a.folded == [])
    requires SameMind(a, b) && SameMail(a, b) && b.agent == a.agent
    ensures SkipOk(log, b) && FoldOk(calls, i, b) && MailOk(log, b)
  {
  }

  /** How a local step reaches each program counter that carries data. */
  ghost predicate PcMoves(a: Act, b: Act, e: Event) {
    && (b.pc.Loading? ==> a.pc.Loading? && b.deferred == a.deferred)
    && (b.pc.Scanning? ==>
          || b.pc == a.pc
          || (e.Query? && b.pc.fetched == e.fetched && b.pc.k == 0)
          || (a.pc.Scanning? && b.pc.fetched == a.pc.fetched && b.pc.k == a.pc.k + 1 <= |a.pc.fetched|
              && a.pc.fetched[a.pc.k].id in a.skip))
    && (b.pc.Handling? ==>
          || (b.pc == a.pc && b.deferred == a.deferred)
          || (a.pc.Scanning? && a.pc.k < |a.pc.fetched| && b.pc.u == a.pc.fetched[a.pc.k] && b.pc.u.id !in a.skip
              && b.pc.work == InBacklog(a.pc.site, a.pc.fetched, a.pc.k))
          || (a.mailbox != [] && b.pc.u == a.mailbox[0] && b.pc.u.id !in a.skip && b.pc.work.InChannel? && !b.deferred))
    && (b.pc.Marking? ==> b.pc == a.pc && b.deferred == a.deferred)
  }

  lemma PcMovesKeepPcOk(log: Log, calls: set<Call>, i: nat, a: Act, b: Act, e: Event)
    requires GoodQuery(log, a, e) && SkipOk(log, a) && MailOk(log, a) && PcOk(log, calls, i, a)
    requires PcMoves(a, b, e) && SameMind(a, b) && b.agent == a.agent
    ensures PcOk(log, calls, i, b)
  {
  }

  ghost predicate SameFrame(a: Act, b: Act) {
    && b.agent == a.agent && b.received == a.received && b.saved == a.saved && b.evicted == a.evicted
    && (a.saved ==> b.memory == a.memory)
    && (Running(b) ==> Running(a))
    && (b.pc.Gone? ==> a.pc.Gone?)
  }

  /** Everything a local step may do, as one relation between before and after. */
  ghost predicate LocalEffect(a: Act, b: Act, e: Event) {
    && SameFrame(a, b) && SameMind(a, b) && SameMail(a, b) && PcMoves(a, b, e)
    && (b.cancelled ==> a.evicted)
  }

  lemma ScanEffect(snapshots: map<Text, Memory>, a: Act, e: Event)
    requires (a.cancelled ==> a.evicted) && (a.saved ==> !Running(a))
    requires e.Load? || e.Query? || e.Advance?
    ensures LocalEffect(a, WorkStep(snapshots, a, e), e)
  {
  }

  lemma HandlerEffect(snapshots: map<Text, Memory>, a: Act, e: Event)
    requires (a.cancelled ==> a.evicted) && (a.saved ==> !Running(a))
    requires !(e.Load? || e.Query? || e.Advance?)
    ensures LocalEffect(a, WorkStep(snapshots, a, e), e)
  {
  }

  lemma LoopEffect(a: Act, e: Event)
    requires (a.cancelled ==> a.evicted) && (a.saved ==> !Running(a))
    ensures LocalEffect(a, LoopStep(a, e), e)
  {
  }

  lemma EffectKeepsActOk(log: Log, calls: set<Call>, i: nat, a: Act, b: Act, e: Event)
    requires ActOk(log, calls, i, a) && GoodQuery(log, a, e) && LocalEffect(a, b, e)
    ensures ActOk(log, calls, i, b)
  {
    FrameKeepsOk(log, calls, i, a, b);
    PcMovesKeepPcOk(log, calls, i, a, b, e);
  }

  lemma LocalKeepsActOk(log: Log, snapshots: map<Text, Memory>, calls: set<Call>, i: nat, a: Act, e: Event)
    requires ActOk(log, calls, i, a) && GoodQuery(log, a, e)
    ensures ActOk(log, calls, i, Local(snapshots, a, e)) && SameFrame(a, Local(snapshots, a, e))
  {
    hide SkipOk, FoldOk, MailOk, PcOk, WorkStep, LoopStep, SameMind, SameMail, PcMoves;
    if IsLoopEvent(e) {
      LoopEffect(a, e);
    } else if e.Load? || e.Query? || e.Advance? {
      ScanEffect(snapshots, a, e);
    } else {
      HandlerEffect(snapshots, a, e);
    }
    EffectKeepsActOk(log, calls, i, a, Local(snapshots, a, e), e);
  }

  /** Local progress never lets go of a pending row. */
  lemma LocalKeepsCover(log: Log, snapshots: map<Text, Memory>, a: Act, e: Event)
    requires GoodQuery(log, a, e) && SkipOk(log, a) && (a.cancelled ==> a.evicted)
    ensures forall id :: Pending(log, a.agent, id) && Covers(a, id) ==> Covers(Local(snapshots, a, e), id)
  {
  }

  // ---------------------------------------------------------- replacing one act

  lemma RegistryMoves(c: Config, s: State, t: State, i: nat)
    requires RegistryOk(c, s) && i < |s.acts| == |t.acts| && SameFrame(s.acts[i], t.acts[i])
    requires t.resident == s.resident && t.acts == s.acts[i := t.acts[i]]
    ensures RegistryOk(c, t)
  {
  }

  lemma DeliveryMoves(s: State, t: State, i: nat)
    requires DeliveryOk(s) && i < |s.acts| == |t.acts| && SameFrame(s.acts[i], t.acts[i])
    requires t.acts == s.acts[i := t.acts[i]] && t.inflight == s.inflight && t.waiting == s.waiting
    requires Extends(s.log, t.log)
    ensures DeliveryOk(t)
  {
    forall j: nat, p: nat, id | At(t, j, p, id) ensures At(s, j, p, id) {
    }
  }

  lemma CoverMoves(s: State, t: State, i: nat)
    requires CoverOk(s) && i < |s.acts| == |t.acts| && SameFrame(s.acts[i], t.acts[i])
    requires t.acts == s.acts[i := t.acts[i]] && t.inflight == s.inflight && t.waiting == s.waiting
    requires t.resident == s.resident && t.owed == s.owed
    requires Extends(s.log, t.log) && t.log.Keys == s.log.Keys
    requires forall g :: g in s.resident && s.resident[g] == i ==> g == s.acts[i].agent
    requires forall id :: Pending(t.log, t.acts[i].agent, id) && Covers(s.acts[i], id) ==> Covers(t.acts[i], id)
    ensures CoverOk(t)
  {
  }

  lemma SnapshotsMove(s: State, t: State, i: nat)
    requires SnapshotsOk(s) && i < |s.acts| == |t.acts| && SameFrame(s.acts[i], t.acts[i])
    requires t.acts == s.acts[i := t.acts[i]] && t.snapshots == s.snapshots
    ensures SnapshotsOk(t)
  {
    forall g | g in t.snapshots ensures exists j :: SavedBy(t, g, j) {
      var j :| SavedBy(s, g, j);
      assert SavedBy(t, g, j);
    }
  }

  lemma ActsMove(s: State, t: State, i: nat)
    requires ActsOk(s) && i < |s.acts| == |t.acts| && t.acts == s.acts[i := t.acts[i]]
    requires Extends(s.log, t.log) && s.calls <= t.calls
    requires ActOk(t.log, t.calls, i, t.acts[i])
    ensures ActsOk(t)
  {
    forall j | 0 <= j < |t.acts| ensures ActOk(t.log, t.calls, j, t.acts[j]) {
      if j != i {
        ActOkMonotone(s.log, t.log, s.calls, t.calls, j, s.acts[j]);
      }
    }
  }

  lemma Owner(c: Config, s: State, i: nat)
    requires RegistryOk(c, s) && i < |s.acts|
    ensures forall g :: g in s.resident && s.resident[g] == i ==> g == s.acts[i].agent
  {
  }

  /** One activation moves, the log and the call history may grow. */
  lemma ActMoves(c: Config, s: State, t: State, i: nat)
    requires Inv(c, s) && i < |s.acts| == |t.acts|
    requires t == s.(acts := s.acts[i := t.acts[i]], log := t.log, calls := t.calls)
    requires Extends(s.log, t.log) && s.log.Keys == t.log.Keys && LogOk(t.log) && s.calls <= t.calls
    requires ActOk(t.log, t.calls, i, t.acts[i]) && SameFrame(s.acts[i], t.acts[i])
    requires HandledOk(t)
    requires forall id :: Pending(t.log, t.acts[i].agent, id) && Covers(s.acts[i], id) ==> Covers(t.acts[i], id)
    ensures Inv(c, t)
  {
    hide ActOk, RegistryOk, DeliveryOk, CoverOk, HandledOk, SnapshotsOk, Covers;
    assert forall g :: g in s.resident && s.resident[g] == i ==> g == s.acts[i].agent by {
      Owner(c, s, i);
    }
    ActsMove(s, t, i);
    RegistryMoves(c, s, t, i);
    DeliveryMoves(s, t, i);
    CoverMoves(s, t, i);
    SnapshotsMove(s, t, i);
  }

  lemma LocalKeepsInv(c: Config, s: State, i: nat, e: Event)
    requires Inv(c, s) && i < |s.acts| && GoodQuery(s.log, s.acts[i], e)
    ensures Inv(c, SetAct(s, i, Local(s.snapshots, s.acts[i], e)))
  {
    hide SkipOk, FoldOk, MailOk, PcOk, RegistryOk, DeliveryOk, CoverOk, SnapshotsOk, Covers, Local, Pending;
    LocalKeepsActOk(s.log, s.snapshots, s.calls, i, s.acts[i], e);
    LocalKeepsCover(s.log, s.snapshots, s.acts[i], e);
    ActMoves(c, s, SetAct(s, i, Local(s.snapshots, s.acts[i], e)), i);
  }

  lemma HandleOkKeepsCover(a: Act, next: Memory, id: Text)
    requires a.pc.Handling? && Covers(a, id)
    ensures Covers(HandleOkAct(a, next), id)
  {
  }

  lemma HandleOkKeepsActOk(log: Log, calls: set<Call>, i: nat, a: Act, next: Memory)
    requires ActOk(log, calls, i, a) && a.pc.Handling?
    ensures ActOk(log, calls + {Call(i, a.pc.u, a.memory, next)}, i, HandleOkAct(a, next))
  {
  }

  lemma HandleOkKeepsInv(c: Config, s: State, i: nat, next: Memory)
    requires Inv(c, s) && i < |s.acts| && s.acts[i].pc.Handling?
    ensures Inv(c, Handled(s, i, next))
  {
    hide SkipOk, FoldOk, MailOk, PcOk, RegistryOk, DeliveryOk, CoverOk, SnapshotsOk, Covers;
    var t := Handled(s, i, next);
    HandleOkKeepsActOk(s.log, s.calls, i, s.acts[i], next);
    forall id | Covers(s.acts[i], id) ensures Covers(t.acts[i], id) {
      HandleOkKeepsCover(s.acts[i], next, id);
    }
    ActMoves(c, s, t, i);
  }

  lemma MarkOkKeepsActOk(log: Log, calls: set<Call>, i: nat, a: Act)
    requires ActOk(log, calls, i, a) && a.pc.Marking?
    ensures ActOk(MarkProcessed(log, a.agent, a.pc.u.id), calls, i, MarkOkAct(i, a))
  {
    var log' := MarkProcessed(log, a.agent, a.pc.u.id);
    var b := MarkOkAct(i, a);
    ActOkMonotone(log, log', calls, calls, i, a);
    assert MailOk(log', b) && SkipOk(log', b);
    ChainedExtends(a.initial, a.folded, Call(i, a.pc.u, a.memory, a.pc.next));
    assert FoldOk(calls, i, b);
  }

  lemma MarkFailKeepsActOk(log: Log, calls: set<Call>, i: nat, a: Act, applied: bool)
    requires ActOk(log, calls, i, a) && a.pc.Marking?
    ensures ActOk(log, calls, i, MarkFailAct(a, applied))
  {
  }

  lemma MarkedIsHandled(s: State, t: State, i: nat, applied: bool)
    requires HandledOk(s) && i < |s.acts| && s.acts[i].pc.Marking?
    requires ActOk(s.log, s.calls, i, s.acts[i])
    requires t.log == Mark(s, i, applied).log && t.calls == s.calls
    ensures HandledOk(t)
  {
  }

  lemma MarkKeepsCover(log: Log, i: nat, a: Act, id: Text)
    requires a.pc.Marking? && Covers(a, id)
    requires Stored(log, a.pc.u) && a.pc.u.toAgent == a.agent
    ensures Pending(MarkProcessed(log, a.agent, a.pc.u.id), a.agent, id) ==> Covers(MarkOkAct(i, a), id)
    ensures Pending(log, a.agent, id) ==> Covers(MarkFailAct(a, false), id)
    ensures Pending(MarkProcessed(log, a.agent, a.pc.u.id), a.agent, id) ==> Covers(MarkFailAct(a, true), id)
  {
  }

  lemma MarkKeepsAllCover(log: Log, i: nat, a: Act)
    requires a.pc.Marking? && Stored(log, a.pc.u) && a.pc.u.toAgent == a.agent
    ensures forall id :: Pending(MarkProcessed(log, a.agent, a.pc.u.id), a.agent, id) && Covers(a, id) ==>
              Covers(MarkOkAct(i, a), id) && Covers(MarkFailAct(a, true), id)
    ensures forall id :: Pending(log, a.agent, id) && Covers(a, id) ==> Covers(MarkFailAct(a, false), id)
  {
    forall id | Covers(a, id)
      ensures Pending(MarkProcessed(log, a.agent, a.pc.u.id), a.agent, id) ==>
                Covers(MarkOkAct(i, a), id) && Covers(MarkFailAct(a, true), id)
      ensures Pending(log, a.agent, id) ==> Covers(MarkFailAct(a, false), id)
    {
      MarkKeepsCover(log, i, a, id);
    }
  }

  lemma MarkOkKeepsInv(c: Config, s: State, i: nat)
    requires Inv(c, s) && i < |s.acts| && s.acts[i].pc.Marking?
    ensures Inv(c, SetAct(Mark(s, i, true), i, MarkOkAct(i, s.acts[i])))
  {
    hide SkipOk, FoldOk, MailOk, RegistryOk, DeliveryOk, CoverOk, HandledOk, SnapshotsOk, Covers;
    var a := s.acts[i];
    var t := SetAct(Mark(s, i, true), i, MarkOkAct(i, s.acts[i]));
    MarkOkKeepsActOk(s.log, s.calls, i, a);
    MarkedIsHandled(s, t, i, true);
    MarkKeepsAllCover(s.log, i, a);
    ActMoves(c, s, t, i);
  }

  lemma MarkFailKeepsInv(c: Config, s: State, i: nat, applied: bool)
    requires Inv(c, s) && i < |s.acts| && s.acts[i].pc.Marking?
    ensures Inv(c, SetAct(Mark(s, i, applied), i, MarkFailAct(s.acts[i], applied)))
  {
    hide SkipOk, FoldOk, MailOk, RegistryOk, DeliveryOk, CoverOk, HandledOk, SnapshotsOk, Covers;
    var a := s.acts[i];
    var t := SetAct(Mark(s, i, applied), i, MarkFailAct(s.acts[i], applied));
    MarkFailKeepsActOk(s.log, s.calls, i, a, applied);
    ActOkMonotone(s.log, t.log, s.calls, s.calls, i, MarkFailAct(a, applied));
    MarkedIsHandled(s, t, i, applied);
    MarkKeepsAllCover(s.log, i, a);
    ActMoves(c, s, t, i);
  }
}
