/** The goroutine of one activation as the imperative program it is. Every
    method drives the step machine, so whatever holds of all runs holds here;
    and every method terminates against every finite environment. */
module ActorLoop {
  import opened Updates
  import opened ActorProtocol
  import opened ActorInvariants
  import opened ActorGlobalProofs
  import opened ActorRuns
  import SQLiteLog

  /** What the surroundings do next: a step of another goroutine, or a failure.
      When the script is used up every call succeeds and time passes. */
  datatype Reply =
    | Outside(l: Label)
    | LoadFails
    | QueryFails
    | HandlerFails
    | HandlerDefers
    | HandlerPanics
    | MarkFails(applied: bool)
    | TimerFires
    | SaveFails

  datatype Outcome = Incorporated | Deferred | Failed | Cancelled | Panicked

  type HandlerFn = (Update, Memory) -> Memory

  /** Memory after the handler has seen the updates in order. */
  function Fold(handle: HandlerFn, us: seq<Update>, m: Memory): Memory
    decreases |us|
  {
    if us == [] then m else handle(us[|us| - 1], Fold(handle, us[..|us| - 1], m))
  }

  lemma FoldSnoc(handle: HandlerFn, us: seq<Update>, k: nat, m: Memory)
    requires k < |us|
    ensures Fold(handle, us[..k + 1], m) == handle(us[k], Fold(handle, us[..k], m))
  {
    assert us[..k + 1][..k] == us[..k];
  }

  ghost predicate Scripted(script: seq<Reply>, i: nat) {
    forall k :: 0 <= k < |script| && script[k].Outside? ==> Foreign(script[k].l, i)
  }

  predicate SameFlags(a: Act, b: Act) {
    b.agent == a.agent && b.mailbox == a.mailbox && b.evicted == a.evicted && b.cancelled == a.cancelled
  }

  /** Only activation i moved, and its mailbox and flags did not. */
  ghost predicate Still(s: State, t: State, i: nat)
    requires i < |s.acts|
  {
    && i < |t.acts|
    && t == s.(log := t.log, calls := t.calls, acts := s.acts[i := t.acts[i]])
    && SameFlags(s.acts[i], t.acts[i])
  }

  /** Exactly the listed rows were marked. */
  ghost predicate MarkedOnly(log: Log, us: seq<Update>, log': Log) {
    && log'.Keys == log.Keys
    && forall id :: id in log ==>
         log'[id] == if Listed(us, id) then log[id].(processed := true) else log[id]
  }

  predicate Listed(us: seq<Update>, id: Text) {
    exists k :: 0 <= k < |us| && us[k].id == id
  }

  lemma MarkOneMore(log: Log, agent: Text, us: seq<Update>, k: nat, log': Log)
    requires k < |us| && MarkedOnly(log, us[..k], log') && Pending(log, agent, us[k].id) && !Listed(us[..k], us[k].id)
    ensures MarkedOnly(log, us[..k + 1], MarkProcessed(log', agent, us[k].id))
  {
  }

  lemma BacklogDistinct(log: Log, agent: Text, us: seq<Update>, k: nat)
    requires LogOk(log) && IsBacklog(log, agent, us) && k < |us|
    ensures Pending(log, agent, us[k].id) && !Listed(us[..k], us[k].id)
  {
    if Listed(us[..k], us[k].id) {
      var j :| 0 <= j < k && us[..k][j].id == us[k].id;
      assert us[j] == us[k];
      PrecedesIrreflexive(us[k]);
    }
  }

  function Ids(us: seq<Update>): set<Text> {
    set u | u in us :: u.id
  }

  lemma IdsSnoc(us: seq<Update>, k: nat)
    requires k < |us|
    ensures Ids(us[..k + 1]) == Ids(us[..k]) + {us[k].id}
  {
  }

  lemma NoneMarked(log: Log)
    ensures MarkedOnly(log, [], log)
  {
  }

  /** Each fetched row is pending, not yet skipped, and listed once. */
  lemma BacklogIds(log: Log, a: Act, us: seq<Update>)
    requires LogOk(log) && SkipOk(log, a) && IsBacklog(log, a.agent, us)
    ensures forall k :: 0 <= k < |us| ==>
              && us[k].id != [] && Listed(us, us[k].id) && Pending(log, a.agent, us[k].id) && !Listed(us[..k], us[k].id)
              && us[k].id !in a.skip + Ids(us[..k])
  {
    forall k | 0 <= k < |us|
      ensures us[k].id != [] && Listed(us, us[k].id) && Pending(log, a.agent, us[k].id) && !Listed(us[..k], us[k].id)
      ensures us[k].id !in a.skip + Ids(us[..k])
    {
      BacklogDistinct(log, a.agent, us, k);
      assert us[k].id in Ids(us[..k]) ==> Listed(us[..k], us[k].id);
    }
  }

  /** World, memory and skip set at one moment. */
  datatype Mind = Mind(world: State, memory: Memory, skip: set<Text>)

  /** Between two moments exactly these updates were folded, in order. */
  ghost predicate Progress(handle: HandlerFn, i: nat, us: seq<Update>, p: Mind, q: Mind) {
    && i < |p.world.acts| && Still(p.world, q.world, i)
    && q.memory == Fold(handle, us, p.memory)
    && q.skip == p.skip + Ids(us)
    && MarkedOnly(p.world.log, us, q.world.log)
  }

  lemma NoProgress(handle: HandlerFn, i: nat, p: Mind)
    requires i < |p.world.acts|
    ensures Progress(handle, i, [], p, p) && Still(p.world, p.world, i)
  {
  }

  lemma ProgressSnoc(handle: HandlerFn, i: nat, us: seq<Update>, k: nat, p: Mind, q: Mind, r: Mind)
    requires k < |us| && Progress(handle, i, us[..k], p, q) && Still(q.world, r.world, i)
    requires Pending(p.world.log, p.world.acts[i].agent, us[k].id)
    requires us[k].id !in p.skip + Ids(us[..k]) && !Listed(us[..k], us[k].id)
    requires us[k].id !in q.skip ==>
               && r.memory == handle(us[k], q.memory) && r.skip == q.skip + {us[k].id}
               && r.world.log == MarkProcessed(q.world.log, p.world.acts[i].agent, us[k].id)
    ensures Progress(handle, i, us[..k + 1], p, r) && Still(p.world, r.world, i)
  {
    hide MarkedOnly, MarkProcessed;
    StillSteps(p.world, q.world, r.world, i);
    MarkOneMore(p.world.log, p.world.acts[i].agent, us, k, q.world.log);
    FoldSnoc(handle, us, k, p.memory);
    IdsSnoc(us, k);
  }

  /** Steps that keep log, memory and skip set keep the progress made. */
  lemma ProgressMoves(handle: HandlerFn, i: nat, us: seq<Update>, p: Mind, q: Mind, r: Mind)
    requires Progress(handle, i, us, p, q) && i < |q.world.acts| && Still(q.world, r.world, i)
    requires r.memory == q.memory && r.skip == q.skip && r.world.log == q.world.log
    ensures Progress(handle, i, us, p, r) && Still(p.world, r.world, i)
  {
  }

  lemma ProgressFrom(handle: HandlerFn, i: nat, us: seq<Update>, p: Mind, q: Mind, r: Mind)
    requires i < |p.world.acts| && Still(p.world, q.world, i) && Progress(handle, i, us, q, r)
    requires p.memory == q.memory && p.skip == q.skip && p.world.log == q.world.log
    ensures Progress(handle, i, us, p, r)
  {
  }

  /** Exactly the agent's backlog was folded. */
  ghost predicate Folded(handle: HandlerFn, i: nat, p: Mind, q: Mind) {
    && i < |p.world.acts|
    && forall us :: IsBacklog(p.world.log, p.world.acts[i].agent, us) ==> Progress(handle, i, us, p, q)
  }

  lemma FoldedBy(handle: HandlerFn, i: nat, us: seq<Update>, p: Mind, q: Mind)
    requires i < |p.world.acts| && LogOk(p.world.log) && us != []
    requires IsBacklog(p.world.log, p.world.acts[i].agent, us) && Progress(handle, i, us, p, q)
    ensures Folded(handle, i, p, q)
    ensures PendingIds(q.world.log, p.world.acts[i].agent) == {} && PendingIds(p.world.log, p.world.acts[i].agent) != {}
  {
    var agent := p.world.acts[i].agent;
    forall vs | IsBacklog(p.world.log, agent, vs) ensures vs == us {
      BacklogUnique(p.world.log, agent, us, vs);
    }
    NothingLeft(p.world.log, agent, us, q.world.log);
    assert us[0].id in PendingIds(p.world.log, agent);
  }

  lemma SomePending(log: Log, agent: Text, us: seq<Update>)
    requires IsBacklog(log, agent, us) && us != []
    ensures PendingIds(log, agent) != {}
  {
    assert us[0].id in PendingIds(log, agent);
  }

  lemma FoldedNone(handle: HandlerFn, i: nat, p: Mind, q: Mind)
    requires i < |p.world.acts| && PendingIds(p.world.log, p.world.acts[i].agent) == {} && Still(p.world, q.world, i)
    requires q.memory == p.memory && q.skip == p.skip && q.world.log == p.world.log
    ensures Folded(handle, i, p, q)
  {
    hide IsBacklog, PendingIds;
    var agent := p.world.acts[i].agent;
    forall us | IsBacklog(p.world.log, agent, us) ensures us == [] {
      if us != [] {
        SomePending(p.world.log, agent, us);
      }
    }
    NoneMarked(p.world.log);
  }

  lemma FoldedMoves(handle: HandlerFn, i: nat, p: Mind, q: Mind, r: Mind)
    requires Folded(handle, i, p, q) && i < |q.world.acts| && Still(q.world, r.world, i)
    requires r.memory == q.memory && r.skip == q.skip && r.world.log == q.world.log
    ensures Folded(handle, i, p, r)
  {
  }

  lemma NothingLeft(log: Log, agent: Text, us: seq<Update>, log': Log)
    requires IsBacklog(log, agent, us) && MarkedOnly(log, us, log')
    ensures PendingIds(log', agent) == {}
  {
  }

  lemma SkippedIsProcessed(c: Config, s: State, i: nat)
    requires Inv(c, s) && i < |s.acts|
    ensures LogOk(s.log) && SkipOk(s.log, s.acts[i])
  {
  }

  lemma LocalStep(c: Config, s: State, i: nat, e: Event)
    requires i < |s.acts| && GoodQuery(s.log, s.acts[i], e)
    ensures Step(c, s, Own(i, e)) == SetAct(s, i, Local(s.snapshots, s.acts[i], e))
  {
  }

  /** What the three steps around a handler call do to one activation. */
  lemma HandleSteps(c: Config, s: State, i: nat, next: Memory)
    requires i < |s.acts| && s.acts[i].pc.Handling?
    ensures var t := Step(c, s, HandleOk(i, next));
            i < |t.acts| && Still(s, t, i) && t.log == s.log && t.acts[i] == HandleOkAct(s.acts[i], next)
  {
  }

  lemma MarkOkSteps(c: Config, s: State, i: nat)
    requires i < |s.acts| && s.acts[i].pc.Marking?
    ensures var t := Step(c, s, MarkOk(i));
            && i < |t.acts| && Still(s, t, i) && t.acts[i] == MarkOkAct(i, s.acts[i])
            && t.log == MarkProcessed(s.log, s.acts[i].agent, s.acts[i].pc.u.id)
  {
  }

  lemma MarkFailSteps(c: Config, s: State, i: nat, applied: bool)
    requires i < |s.acts| && s.acts[i].pc.Marking?
    ensures var t := Step(c, s, MarkFail(i, applied));
            i < |t.acts| && Still(s, t, i) && t.acts[i] == MarkFailAct(s.acts[i], applied)
  {
  }

  lemma StillSteps(s: State, t: State, r: State, i: nat)
    requires i < |s.acts| && Still(s, t, i) && Still(t, r, i)
    ensures Still(s, r, i)
  {
  }

  lemma StillFlags(s: State, t: State, i: nat)
    requires i < |s.acts| && Still(s, t, i)
    ensures t.acts[i].mailbox == s.acts[i].mailbox && t.acts[i].agent == s.acts[i].agent
    ensures t.acts[i].cancelled == s.acts[i].cancelled && t.acts[i].evicted == s.acts[i].evicted
  {
  }

  lemma StillHere(s: State, i: nat)
    requires i < |s.acts|
    ensures Still(s, s, i)
  {
  }

  function Draining(cold: bool): Pc {
    if cold then ColdDraining else WarmDraining
  }

  function SnapshotOf(snapshots: map<Text, Memory>, agent: Text): Memory {
    if agent in snapshots then snapshots[agent] else []
  }

  /** The snapshot was loaded and exactly the backlog was folded over it. */
  ghost predicate Replayed(handle: HandlerFn, i: nat, p: Mind, q: Mind) {
    && i < |p.world.acts| && Still(p.world, q.world, i)
    && var agent := p.world.acts[i].agent;
       forall us :: IsBacklog(p.world.log, agent, us) ==>
         && q.memory == Fold(handle, us, SnapshotOf(p.world.snapshots, agent))
         && MarkedOnly(p.world.log, us, q.world.log)
  }

  lemma ReplayedBy(handle: HandlerFn, i: nat, p: Mind, loaded: Mind, q: Mind)
    requires i < |p.world.acts| && Still(p.world, loaded.world, i) && loaded.world.log == p.world.log
    requires loaded.memory == SnapshotOf(p.world.snapshots, p.world.acts[i].agent)
    requires Folded(handle, i, loaded, q) && Still(loaded.world, q.world, i)
    ensures Replayed(handle, i, p, q)
  {
  }

  lemma ReplayedFlags(handle: HandlerFn, i: nat, p: Mind, q: Mind)
    requires Replayed(handle, i, p, q)
    ensures q.world.acts[i].cancelled == p.world.acts[i].cancelled && q.world.acts[i].evicted == p.world.acts[i].evicted
  {
  }

  /** The activation left after saving the fold of its backlog; no other agent's
      row, snapshot or registration changed. */
  ghost predicate Completed(handle: HandlerFn, i: nat, s: State, t: State) {
    && i < |s.acts| && i < |t.acts| && t.acts[i].agent == s.acts[i].agent
    && var agent := s.acts[i].agent;
       && t.resident == s.resident - {agent}
       && agent in t.snapshots && t.snapshots == s.snapshots[agent := t.snapshots[agent]]
       && forall us :: IsBacklog(s.log, agent, us) ==>
            && t.snapshots[agent] == Fold(handle, us, SnapshotOf(s.snapshots, agent))
            && MarkedOnly(s.log, us, t.log)
  }

  lemma SavedIsCompleted(handle: HandlerFn, i: nat, p: Mind, q: Mind)
    requires Replayed(handle, i, p, q) && i < |q.world.acts| && q.world.acts[i].memory == q.memory
    ensures Completed(handle, i, p.world, Passivate(q.world, i))
  {
  }

  lemma SaveSteps(c: Config, s: State, i: nat)
    requires i < |s.acts| && s.acts[i].pc.Selecting? && s.acts[i].mailbox == [] && !s.acts[i].evicted
    ensures Step(c, s, IdleSave(i)) == Passivate(s, i)
    ensures i < |Passivate(s, i).acts| && Passivate(s, i).acts[i].pc == Exiting && Passivate(s, i).acts[i].agent == s.acts[i].agent
  {
  }

  lemma LeaveSteps(c: Config, handle: HandlerFn, s: State, t: State, i: nat)
    requires i < |t.acts| && t.acts[i].pc.Exiting?
    ensures var r := Step(c, t, Deregister(i)); i < |r.acts| && r.acts[i].pc == Gone
    ensures Completed(handle, i, s, t) ==> Completed(handle, i, s, Step(c, t, Deregister(i)))
  {
  }

  lemma BailEffect(snapshots: map<Text, Memory>, a: Act)
    requires a.cancelled && (a.pc.Querying? || a.pc.Scanning?)
    ensures Local(snapshots, a, Bail) == a.(pc := AfterBacklog(a.pc.site), deferred := false)
  {
  }

  lemma AdvanceEffect(snapshots: map<Text, Memory>, a: Act)
    requires a.pc.Scanning? && a.pc.k < |a.pc.fetched|
    ensures var u := a.pc.fetched[a.pc.k];
            Local(snapshots, a, Advance) ==
            a.(pc := if u.id in a.skip then Scanning(a.pc.site, a.pc.fetched, a.pc.k + 1)
                     else Handling(u, InBacklog(a.pc.site, a.pc.fetched, a.pc.k)))
  {
  }

  lemma HandlerEffects(snapshots: map<Text, Memory>, a: Act)
    requires a.pc.Handling?
    ensures Local(snapshots, a, HandlePanic) == a.(pc := Exiting)
    ensures Local(snapshots, a, HandleDefer) == a.(pc := AfterReturn(a.pc.work), deferred := true)
    ensures Local(snapshots, a, HandleFail)
         == a.(pc := AfterFailure(a.pc.work), missed := a.missed + Dropped(a.pc.work, a.pc.u.id))
  {
  }

  class Activation {
    const c: Config
    const i: nat
    const handle: HandlerFn
    ghost const start: State
    var world: State
    var script: seq<Reply>
    var memory: Memory
    var skip: set<Text>
    ghost var trace: seq<Label>

    /** The world was reached from `start` by the labels of `trace`. */
    ghost predicate Linked()
      reads this
    {
      && c.Ok() && Inv(c, world) && world == Exec(c, start, trace)
      && i < |world.acts| && Scripted(script, i)
    }

    ghost predicate Valid()
      reads this
    {
      Linked() && world.acts[i].memory == memory && world.acts[i].skip == skip
    }

    constructor (c: Config, i: nat, handle: HandlerFn, world: State, script: seq<Reply>)
      requires c.Ok() && Inv(c, world) && i < |world.acts| && Scripted(script, i)
      ensures Valid() && this.world == world == start && this.script == script && this.c == c && this.i == i
      ensures this.handle == handle && trace == []
    {
      this.c, this.i, this.handle := c, i, handle;
      this.start, this.world, this.script := world, world, script;
      this.memory, this.skip := world.acts[i].memory, world.acts[i].skip;
      this.trace := [];
    }

    function Me(): Act
      reads this
      requires i < |world.acts|
    {
      world.acts[i]
    }

    // ------------------------------------------------------------------ steps

    /** One step of the machine, whoever takes it. */
    method Take(l: Label)
      requires Linked() && i < |Step(c, world, l).acts|
      modifies this`world, this`trace
      ensures Linked() && world == Step(c, old(world), l)
    {
      hide Step, Inv;
      StepKeepsInv(c, world, l);
      ExecSnoc(c, start, trace, l);
      trace := trace + [l];
      world := Step(c, world, l);
    }

    /** A step that changes nothing but this activation. */
    method Move(e: Event)
      requires Linked() && GoodQuery(world.log, Me(), e)
      modifies this`world, this`trace
      ensures Linked()
      ensures world == SetAct(old(world), i, Local(old(world).snapshots, old(Me()), e))
      ensures Me() == Local(old(world).snapshots, old(Me()), e) && world.log == old(world.log)
      ensures SameFlags(old(Me()), Me()) ==> Still(old(world), world, i)
    {
      hide Inv, Exec, Step, Local;
      LocalStep(c, world, i, e);
      Take(Own(i, e));
    }

    /** Other goroutines run for a while. */
    method Interfere()
      requires Valid()
      modifies this`world, this`trace, this`script
      ensures Valid() && SamePlace(old(Me()), Me())
      ensures |script| <= |old(script)|
      ensures |script| == |old(script)| ==> world == old(world) && script == old(script)
    {
      hide Inv, Exec, Step;
      while script != [] && script[0].Outside?
        invariant Valid() && SamePlace(old(Me()), Me())
        invariant |script| <= |old(script)|
        invariant |script| == |old(script)| ==> world == old(world) && script == old(script)
        decreases |script|
      {
        var l := script[0].l;
        ForeignSpares(c, world, l, i);
        script := script[1..];
        Take(l);
      }
    }

    method NextReply() returns (reply: Reply)
      requires Valid() && script != []
      modifies this`script
      ensures Valid() && script == old(script)[1..] && reply == old(script)[0]
    {
      hide Inv, Exec;
      reply := script[0];
      script := script[1..];
    }

    /** A handler panic unwinds the whole goroutine: every caller returns at once. */
    ghost predicate Unwinds(before: seq<Reply>)
      reads this
    {
      i < |world.acts| && world.acts[i].pc == Exiting && |script| < |before|
    }

    // ------------------------------------------------- one update, start to end

    /** The handler defers, fails or panics. */
    method Unsuccessful(work: Work) returns (outcome: Outcome)
      requires Valid() && Me().pc.Handling? && Me().pc.work == work
      requires script != [] && (script[0].HandlerDefers? || script[0].HandlerFails? || script[0].HandlerPanics?)
      modifies this`world, this`trace, this`script
      ensures Valid() && |script| < |old(script)|
      ensures Me().agent == old(Me().agent) && Me().deferred == (outcome.Deferred? || old(Me().deferred))
      ensures outcome.Deferred? ==> Me().pc == AfterReturn(work)
      ensures outcome.Failed? ==> Me().pc == AfterFailure(work)
      ensures outcome.Panicked? ==> Me().pc == Exiting
      ensures outcome.Deferred? || outcome.Failed? || outcome.Panicked?
    {
      hide Inv, Exec, Step, Scripted, Local, SetAct, Still, AfterReturn, AfterFailure;
      HandlerEffects(world.snapshots, Me());
      var reply := NextReply();
      if reply.HandlerDefers? {
        Move(HandleDefer);
        return Deferred;
      }
      if reply.HandlerFails? {
        Move(HandleFail);
        return Failed;
      }
      Move(HandlePanic);
      return Panicked;
    }

    /** HandleUpdate. The activation is left at the mark when it succeeds. */
    method CallHandler(u: Update, work: Work) returns (outcome: Outcome, next: Memory)
      requires Valid() && Me().pc == Handling(u, work)
      modifies this`world, this`trace, this`script
      ensures Valid() && |script| <= |old(script)|
      ensures Me().agent == old(Me().agent) && Me().deferred == (outcome.Deferred? || old(Me().deferred))
      ensures outcome.Incorporated? ==> Me().pc == Marking(u, next, work) && next == handle(u, memory)
      ensures outcome.Deferred? ==> Me().pc == AfterReturn(work)
      ensures outcome.Failed? ==> Me().pc == AfterFailure(work)
      ensures outcome.Panicked? ==> Me().pc == Exiting
      ensures !outcome.Incorporated? ==> |script| < |old(script)|
      ensures !outcome.Cancelled?
      ensures |script| == |old(script)| ==>
                script == old(script) && Still(old(world), world, i) && world.log == old(world.log)
    {
      hide Inv, Exec, Step, Scripted, Local, SetAct, Still, AfterReturn, AfterFailure;
      Interfere();
      next := memory;
      if script != [] && (script[0].HandlerDefers? || script[0].HandlerFails? || script[0].HandlerPanics?) {
        outcome := Unsuccessful(work);
        return;
      }
      next := handle(u, memory);
      HandleSteps(c, world, i, next);
      Take(HandleOk(i, next));
      return Incorporated, next;
    }

    /** MarkProcessed, and only then the fold into memory and the skip set. */
    method MarkUpdate(u: Update, next: Memory, work: Work) returns (ok: bool)
      requires Valid() && Me().pc == Marking(u, next, work)
      modifies this`world, this`trace, this`script, this`memory, this`skip
      ensures Valid() && |script| <= |old(script)|
      ensures Me().agent == old(Me().agent) && Me().deferred == old(Me().deferred)
      ensures Me().pc == if ok then AfterMark(work) else AfterFailure(work)
      ensures memory == (if ok then next else old(memory))
      ensures skip == (if ok then old(skip) + {u.id} else old(skip))
      ensures !ok ==> |script| < |old(script)|
      ensures |script| == |old(script)| ==>
                script == old(script) && Still(old(world), world, i) && world.log == MarkProcessed(old(world.log), old(Me().agent), u.id)
    {
      hide Inv, Exec, Step, MarkProcessed, Scripted, Still, AfterMark, AfterFailure;
      Interfere();
      if script != [] && script[0].MarkFails? {
        var reply := NextReply();
        MarkFailSteps(c, world, i, reply.applied);
        Take(MarkFail(i, reply.applied));
        return false;
      }
      MarkOkSteps(c, world, i);
      Take(MarkOk(i));
      memory := next;
      skip := skip + {u.id};
      return true;
    }

    /** HandleUpdate, then MarkProcessed, then the fold into memory. */
    method CallAndMark(u: Update, work: Work) returns (outcome: Outcome)
      requires Valid() && Me().pc == Handling(u, work)
      modifies this`world, this`trace, this`script, this`memory, this`skip
      ensures Valid() && |script| <= |old(script)|
      ensures Me().pc == if outcome.Incorporated? then AfterMark(work)
                         else if outcome.Deferred? then AfterReturn(work)
                         else if outcome.Panicked? then Exiting else AfterFailure(work)
      ensures Me().agent == old(Me().agent) && Me().deferred == (outcome.Deferred? || old(Me().deferred))
      ensures memory == (if outcome.Incorporated? then handle(u, old(memory)) else old(memory))
      ensures skip == (if outcome.Incorporated? then old(skip) + {u.id} else old(skip))
      ensures !outcome.Incorporated? ==> |script| < |old(script)|
      ensures !outcome.Cancelled?
      ensures |script| == |old(script)| ==>
                script == old(script) && Still(old(world), world, i) && world.log == MarkProcessed(old(world.log), old(Me().agent), u.id)
    {
      hide Inv, Exec, Step, MarkProcessed, Scripted, AfterMark, AfterFailure, AfterReturn, Still;
      var next;
      outcome, next := CallHandler(u, work);
      if outcome.Incorporated? {
        ghost var called := world;
        var ok := MarkUpdate(u, next, work);
        if |script| == |old(script)| {
          StillSteps(old(world), called, world, i);
          StillFlags(old(world), called, i);
        }
        if !ok {
          outcome := Failed;
        }
      }
    }

    /** processOne: one update from the channel; true means the handler deferred it. */
    method ProcessOne(u: Update, origin: Origin) returns (deferred: bool)
      requires Valid() && Me().pc == Handling(u, InChannel(origin)) && !Me().deferred
      modifies this`world, this`trace, this`script, this`memory, this`skip
      ensures Valid() && |script| <= |old(script)|
      ensures Me().agent == old(Me().agent) && Me().deferred == deferred
      ensures Me().pc == AfterOne(origin) || Unwinds(old(script))
      ensures |script| == |old(script)| ==> script == old(script) && Still(old(world), world, i) && !deferred
      ensures |script| == |old(script)| && !old(Me().cancelled) ==>
                memory == handle(u, old(memory)) && skip == old(skip) + {u.id}
    {
      hide Inv, Exec, Step, Scripted;
      Interfere();
      if world.acts[i].cancelled {
        Move(Bail);
        return false;
      }
      var outcome := CallAndMark(u, InChannel(origin));
      if outcome.Failed? {
        Interfere();
      }
      return outcome.Deferred?;
    }

    // --------------------------------------------------------------- the backlog

    /** ctx.Err() before a query or a row, or after a backoff: return when cancelled. */
    method CheckDone(site: Site) returns (done: bool)
      requires Valid() && (Me().pc.Querying? || Me().pc.Scanning?) && Me().pc.site == site
      modifies this`world, this`trace, this`script
      ensures Valid() && |script| <= |old(script)| && Me().agent == old(Me().agent)
      ensures done ==> Me().pc == AfterBacklog(site) && !Me().deferred && Me().cancelled
      ensures !done ==> Me().pc == old(Me().pc)
      ensures |script| == |old(script)| ==>
                && script == old(script) && Still(old(world), world, i) && world.log == old(world.log)
                && (!done ==> world == old(world))
    {
      hide Inv, Exec, Step, Scripted, Local, SetAct, Still;
      StillHere(world, i);
      Interfere();
      done := world.acts[i].cancelled;
      if done {
        BailEffect(world.snapshots, Me());
        Move(Bail);
      }
    }

    /** The body of the scan for one row: skip it, or handle and mark it. */
    method ScanRow(site: Site, backlog: seq<Update>, k: nat) returns (outcome: Outcome)
      requires Valid() && k < |backlog| && Me().pc == Scanning(site, backlog, k)
      modifies this`world, this`trace, this`script, this`memory, this`skip
      ensures Valid() && |script| <= |old(script)| && Me().agent == old(Me().agent)
      ensures outcome.Incorporated? ==> Me().pc == Scanning(site, backlog, k + 1)
      ensures outcome.Deferred? ==> Me().pc == AfterBacklog(site) && Me().deferred
      ensures outcome.Failed? ==> Me().pc == Querying(site)
      ensures outcome.Panicked? ==> Me().pc == Exiting
      ensures !outcome.Cancelled? && (!outcome.Incorporated? ==> |script| < |old(script)|)
      ensures |script| == |old(script)| ==> script == old(script) && Still(old(world), world, i)
      ensures |script| == |old(script)| && backlog[k].id !in old(skip) ==>
                && memory == handle(backlog[k], old(memory)) && skip == old(skip) + {backlog[k].id}
                && world.log == MarkProcessed(old(world.log), old(Me().agent), backlog[k].id)
    {
      hide Inv, Exec, Step, MarkProcessed, Scripted, Local, SetAct, Still;
      AdvanceEffect(world.snapshots, Me());
      Move(Advance);
      outcome := Incorporated;
      if backlog[k].id !in skip {
        ghost var before := world;
        outcome := CallAndMark(backlog[k], InBacklog(site, backlog, k));
        if |script| == |old(script)| {
          StillSteps(old(world), before, world, i);
        }
      }
    }

    /** One row of the scan with the checks around it; `Failed` breaks off to query again. */
    method ScanStep(site: Site, backlog: seq<Update>, k: nat) returns (outcome: Outcome)
      requires Valid() && k < |backlog| && Me().pc == Scanning(site, backlog, k)
      modifies this`world, this`trace, this`script, this`memory, this`skip
      ensures Valid() && |script| <= |old(script)| && Me().agent == old(Me().agent)
      ensures outcome.Incorporated? ==> Me().pc == Scanning(site, backlog, k + 1)
      ensures outcome.Deferred? ==> Me().pc == AfterBacklog(site) && Me().deferred
      ensures outcome.Failed? ==> Me().pc == Querying(site)
      ensures outcome.Panicked? ==> Me().pc == Exiting
      ensures outcome.Cancelled? ==> Me().pc == AfterBacklog(site) && !Me().deferred && Me().cancelled
      ensures outcome.Deferred? || outcome.Failed? || outcome.Panicked? ==> |script| < |old(script)|
      ensures |script| == |old(script)| ==> script == old(script) && Still(old(world), world, i)
      ensures |script| == |old(script)| && outcome.Incorporated? && backlog[k].id !in old(skip) ==>
                && memory == handle(backlog[k], old(memory)) && skip == old(skip) + {backlog[k].id}
                && world.log == MarkProcessed(old(world.log), old(Me().agent), backlog[k].id)
    {
      hide Inv, Exec, Step, MarkProcessed, Scripted, Still, AfterBacklog;
      var done := CheckDone(site);
      if done {
        return Cancelled;
      }
      outcome := ScanRow(site, backlog, k);
      if outcome.Failed? {
        done := CheckDone(site);
        if done {
          return Cancelled;
        }
      }
    }

    ghost function Now(): Mind
      reads this
    {
      Mind(world, memory, skip)
    }

    /** A query that finds nothing ends processBacklog without a deferral. */
    method FindNothing(site: Site)
      requires Valid() && Me().pc == Querying(site) && IsBacklog(world.log, Me().agent, [])
      modifies this`world, this`trace
      ensures Valid() && Me().agent == old(Me().agent) && Me().pc == AfterBacklog(site) && !Me().deferred
      ensures Still(old(world), world, i) && world.log == old(world.log)
      ensures PendingIds(world.log, Me().agent) == {}
    {
      hide Inv, Exec, Step, Scripted;
      Move(Query([]));
    }

    method Fetch(site: Site, backlog: seq<Update>)
      requires Valid() && Me().pc == Querying(site) && IsBacklog(world.log, Me().agent, backlog) && backlog != []
      modifies this`world, this`trace
      ensures Valid() && Me() == old(Me()).(pc := Scanning(site, backlog, 0))
      ensures Still(old(world), world, i) && world.log == old(world.log)
    {
      hide Inv, Exec, Step, Scripted, IsBacklog;
      Move(Query(backlog));
    }

    method EndScan()
      requires Valid() && Me().pc.Scanning? && Me().pc.k == |Me().pc.fetched|
      modifies this`world, this`trace
      ensures Valid() && Me() == old(Me()).(pc := Querying(old(Me().pc.site)))
      ensures Still(old(world), world, i) && world.log == old(world.log)
    {
      hide Inv, Exec, Step, Scripted;
      Move(Advance);
    }

    /** One pass over a fetched backlog. It returns with a verdict, or breaks off
        to query again; undisturbed, it folds the whole backlog in order. */
    method ScanBacklog(site: Site, backlog: seq<Update>) returns (returned: bool, head: Text)
      requires Valid() && Me().pc == Scanning(site, backlog, 0) && IsBacklog(world.log, Me().agent, backlog)
      modifies this`world, this`trace, this`script, this`memory, this`skip
      ensures Valid() && |script| <= |old(script)| && Me().agent == old(Me().agent)
      ensures returned && !Me().pc.Exiting? ==>
                Me().pc == AfterBacklog(site) && Me().deferred == (head != []) && (head == [] ==> Me().cancelled)
      ensures Me().pc.Exiting? ==> returned && head == [] && Unwinds(old(script))
      ensures head != [] ==> returned && Listed(backlog, head) && |script| < |old(script)|
      ensures !returned ==> Me().pc == Querying(site)
      ensures |script| == |old(script)| ==> script == old(script) && Still(old(world), world, i) && (returned ==> Me().cancelled)
      ensures |script| == |old(script)| && !returned ==> Progress(handle, i, backlog, old(Now()), Now())
    {
      hide Inv, Exec, Step, MarkProcessed, Scripted, IsBacklog, Pending, Listed, Progress, Local, Still;
      SkippedIsProcessed(c, world, i);
      BacklogIds(world.log, Me(), backlog);
      NoProgress(handle, i, Now());
      assert backlog[..0] == [];
      for k := 0 to |backlog|
        invariant Valid() && |script| <= |old(script)|
        invariant Me().pc == Scanning(site, backlog, k) && Me().agent == old(Me().agent)
        invariant |script| == |old(script)| ==>
                    script == old(script) && Still(old(world), world, i) && Progress(handle, i, backlog[..k], old(Now()), Now())
      {
        ghost var here := Now();
        var outcome := ScanStep(site, backlog, k);
        if !outcome.Incorporated? {
          if |script| == |old(script)| {
            StillSteps(old(world), here.world, world, i);
          }
          return !outcome.Failed?, if outcome.Deferred? then backlog[k].id else [];
        }
        if |script| == |old(script)| {
          ProgressSnoc(handle, i, backlog, k, old(Now()), here, Now());
        }
      }
      assert backlog[..|backlog|] == backlog;
      ghost var here := Now();
      EndScan();
      if |script| == |old(script)| {
        ProgressMoves(handle, i, backlog, old(Now()), here, Now());
      }
      return false, [];
    }

    /** Query once and, when rows came back, scan them. */
    method QueryAndScan(site: Site) returns (done: bool, head: Text)
      requires Valid() && Me().pc == Querying(site)
      modifies this`world, this`trace, this`script, this`memory, this`skip
      ensures Valid() && |script| <= |old(script)| && Me().agent == old(Me().agent)
      ensures done && !Me().pc.Exiting? ==> Me().pc == AfterBacklog(site) && Me().deferred == (head != [])
      ensures Me().pc.Exiting? ==> done && head == [] && Unwinds(old(script))
      ensures done && !Me().pc.Exiting? && head == [] && !Me().cancelled ==> PendingIds(world.log, Me().agent) == {}
      ensures head != [] ==> done && |script| < |old(script)|
      ensures !done ==> Me().pc == Querying(site)
      ensures |script| == |old(script)| ==> script == old(script) && Still(old(world), world, i)
      ensures |script| == |old(script)| && done && !Me().cancelled ==>
                && PendingIds(old(world.log), Me().agent) == {}
                && memory == old(memory) && skip == old(skip) && world.log == old(world.log)
      ensures |script| == |old(script)| && !done ==>
                && PendingIds(world.log, Me().agent) == {} && PendingIds(old(world.log), Me().agent) != {}
                && Folded(handle, i, old(Now()), Now())
    {
      hide Inv, Exec, Step, Scripted, Progress, Local, IsBacklog, Pending, PendingIds, Folded, Listed, Still;
      SkippedIsProcessed(c, world, i);
      var backlog := SQLiteLog.SelectBacklog(world.log, world.acts[i].agent);
      if |backlog| == 0 {
        FindNothing(site);
        return true, [];
      }
      Fetch(site, backlog);
      ghost var fetched := Now();
      done, head := ScanBacklog(site, backlog);
      if |script| == |old(script)| {
        StillSteps(old(world), fetched.world, world, i);
        if !done {
          ProgressFrom(handle, i, backlog, old(Now()), fetched, Now());
          FoldedBy(handle, i, backlog, old(Now()), Now());
        }
      }
    }

    /** One turn of processBacklog's outer loop. A turn that does not end the call
        either used up some of the environment's script or emptied the backlog. */
    method Round(site: Site) returns (done: bool, head: Text)
      requires Valid() && Me().pc == Querying(site)
      modifies this`world, this`trace, this`script, this`memory, this`skip
      ensures Valid() && |script| <= |old(script)| && Me().agent == old(Me().agent)
      ensures done && !Me().pc.Exiting? ==> Me().pc == AfterBacklog(site) && Me().deferred == (head != [])
      ensures Me().pc.Exiting? ==> done && head == [] && Unwinds(old(script))
      ensures done && !Me().pc.Exiting? && head == [] && !Me().cancelled ==> PendingIds(world.log, Me().agent) == {}
      ensures head != [] ==> done && |script| < |old(script)|
      ensures !done ==> Me().pc == Querying(site)
      ensures |script| == |old(script)| ==> script == old(script) && Still(old(world), world, i)
      ensures |script| == |old(script)| && done && !Me().cancelled ==>
                && PendingIds(old(world.log), Me().agent) == {}
                && memory == old(memory) && skip == old(skip) && world.log == old(world.log)
      ensures |script| == |old(script)| && !done ==>
                && PendingIds(world.log, Me().agent) == {} && PendingIds(old(world.log), Me().agent) != {}
                && Folded(handle, i, old(Now()), Now())
    {
      hide Inv, Exec, Step, Scripted, PendingIds, Folded, Still;
      head := [];
      done := CheckDone(site);
      if done {
        return;
      }
      if script != [] && script[0].QueryFails? {
        var _ := NextReply();
        done := CheckDone(site);
        return;
      }
      done, head := QueryAndScan(site);
    }

    /** processBacklog: query, fold, query again, until the log has nothing left,
        a head is deferred, or the context is cancelled. An undisturbed call
        leaves the backlog empty and the memory folded over it in order. */
    method ProcessBacklog(site: Site) returns (head: Text)
      requires Valid() && Me().pc == Querying(site)
      modifies this`world, this`trace, this`script, this`memory, this`skip
      ensures Valid() && |script| <= |old(script)| && Me().agent == old(Me().agent)
      ensures !Me().pc.Exiting? ==> Me().pc == AfterBacklog(site) && Me().deferred == (head != [])
      ensures Me().pc.Exiting? ==> head == [] && Unwinds(old(script))
      ensures !Me().pc.Exiting? && head == [] && !Me().cancelled ==> PendingIds(world.log, Me().agent) == {}
      ensures head != [] ==> |script| < |old(script)|
      ensures |script| == |old(script)| ==> script == old(script) && Still(old(world), world, i)
      ensures |script| == |old(script)| && !old(Me().cancelled) ==> Folded(handle, i, old(Now()), Now())
    {
      hide Inv, Exec, Step, Scripted, Progress, Local, IsBacklog, Pending, PendingIds, Folded, Listed;
      while true
        invariant Valid() && |script| <= |old(script)| && Me().pc == Querying(site) && Me().agent == old(Me().agent)
        invariant |script| == |old(script)| ==>
                    && script == old(script) && Still(old(world), world, i)
                    && (Now() == old(Now()) || Folded(handle, i, old(Now()), Now()))
                    && (PendingIds(world.log, Me().agent) == {} || Now() == old(Now()))
        decreases |script|, |PendingIds(world.log, Me().agent)|
      {
        ghost var here := Now();
        var done;
        done, head := Round(site);
        if done {
          if |script| == |old(script)| && !world.acts[i].cancelled {
            if here == old(Now()) {
              FoldedNone(handle, i, here, Now());
            } else {
              FoldedMoves(handle, i, old(Now()), here, Now());
            }
          }
          return head;
        }
      }
    }

    // ------------------------------------------------------------- the warm loop

    method Receive() returns (u: Update)
      requires Valid() && Me().mailbox != [] && (Me().pc.ColdDraining? || Me().pc.Selecting? || Me().pc.WarmDraining?)
      modifies this`world, this`trace
      ensures Valid() && u == old(Me()).mailbox[0]
      ensures Me() == old(Me()).(pc := AfterReceive(old(Me()), u), mailbox := old(Me()).mailbox[1..])
    {
      hide Inv, Exec, Step, Scripted, AfterReceive;
      u := world.acts[i].mailbox[0];
      Move(ActorProtocol.Receive);
    }

    method StopDraining(cold: bool)
      requires Valid() && Me().mailbox == [] && Me().pc == Draining(cold)
      modifies this`world, this`trace
      ensures Valid() && Still(old(world), world, i) && world.log == old(world.log)
      ensures Me().agent == old(Me().agent) && Me().mailbox == [] && Me().deferred == old(Me()).deferred
      ensures Me().pc == if cold || Me().deferred then Selecting else Querying(AtPostDrain)
    {
      hide Inv, Exec, Step, Scripted;
      Move(if cold then ColdEmpty else DrainEmpty);
    }

    /** One receive of a drain loop. */
    method DrainOne(cold: bool, deferred0: bool) returns (deferred: bool)
      requires Valid() && Me().pc == Draining(cold) && Me().deferred == deferred0 && Me().mailbox != []
      modifies this`world, this`trace, this`script, this`memory, this`skip
      ensures Valid() && |script| <= |old(script)| && Me().agent == old(Me().agent) && Me().deferred == deferred
      ensures Me().pc == Draining(cold) || Unwinds(old(script))
      ensures |script| == |old(script)| ==> |Me().mailbox| < |old(Me().mailbox)|
      ensures deferred0 ==> deferred && memory == old(memory) && skip == old(skip)
    {
      hide Inv, Exec, Step, Scripted, Still;
      deferred := deferred0;
      var u := Receive();
      if !deferred && u.id !in skip {
        ghost var before, left := world, |script|;
        deferred := ProcessOne(u, if cold then FromColdDrain else FromWarmDrain);
        if |script| == left {
          StillFlags(before, world, i);
        }
      }
    }

    /** The two drain loops. A deferred activation discards channel copies
        without touching its memory; they stay in the log. */
    method Drain(cold: bool, deferred0: bool) returns (deferred: bool)
      requires Valid() && Me().pc == Draining(cold) && Me().deferred == deferred0
      modifies this`world, this`trace, this`script, this`memory, this`skip
      ensures Valid() && |script| <= |old(script)| && Me().agent == old(Me().agent)
      ensures !Me().pc.Exiting? ==>
                && Me().mailbox == [] && Me().deferred == deferred
                && Me().pc == if cold || deferred then Selecting else Querying(AtPostDrain)
      ensures Me().pc.Exiting? ==> Unwinds(old(script))
      ensures deferred0 ==> deferred && memory == old(memory) && skip == old(skip)
      ensures |script| == |old(script)| && old(Me().mailbox) == [] ==>
                && Still(old(world), world, i) && world.log == old(world.log)
                && memory == old(memory) && skip == old(skip) && deferred == deferred0
    {
      hide Inv, Exec, Step, Scripted, Still;
      deferred := deferred0;
      while true
        invariant Valid() && |script| <= |old(script)| && Me().agent == old(Me().agent)
        invariant Me().pc == Draining(cold) && Me().deferred == deferred
        invariant deferred0 ==> deferred && memory == old(memory) && skip == old(skip)
        invariant |script| == |old(script)| && old(Me().mailbox) == [] ==> Now() == old(Now()) && deferred == deferred0
        decreases |script|, |Me().mailbox|
      {
        Interfere();
        if world.acts[i].mailbox == [] {
          StopDraining(cold);
          return;
        }
        deferred := DrainOne(cold, deferred);
        if world.acts[i].pc.Exiting? {
          return;
        }
      }
    }

    /** One receive of the warm select: a deferred activation replays the log first. */
    method WarmReceive(deferred0: bool) returns (deferred: bool)
      requires Valid() && Me().pc == Selecting && Me().mailbox != [] && Me().deferred == deferred0
      modifies this`world, this`trace, this`script, this`memory, this`skip
      ensures Valid() && |script| <= |old(script)| && Me().agent == old(Me().agent)
      ensures !Me().pc.Exiting? ==> Me().pc == Draining(false) && Me().deferred == deferred
      ensures Me().pc.Exiting? ==> Unwinds(old(script))
    {
      hide Inv, Exec, Step, Scripted, Folded, PendingIds, Still;
      deferred := deferred0;
      var u := Receive();
      if deferred {
        var head := ProcessBacklog(AtWake);
        deferred := head != [];
      } else if u.id !in skip {
        deferred := ProcessOne(u, FromSelect);
      }
    }

    /** One receive of the warm select and everything up to the next select. */
    method WarmRound(deferred0: bool) returns (deferred: bool)
      requires Valid() && Me().pc == Selecting && Me().mailbox != [] && Me().deferred == deferred0
      modifies this`world, this`trace, this`script, this`memory, this`skip
      ensures Valid() && |script| <= |old(script)| && Me().agent == old(Me().agent)
      ensures !Me().pc.Exiting? ==> Me().pc == Selecting && Me().deferred == deferred
      ensures Me().pc.Exiting? ==> Unwinds(old(script))
      ensures |script| == |old(script)| ==> Me().mailbox == []
      ensures !Me().pc.Exiting? && !deferred && !Me().cancelled ==> PendingIds(world.log, Me().agent) == {}
    {
      hide Inv, Exec, Step, Scripted, Folded, PendingIds;
      deferred := WarmReceive(deferred0);
      if world.acts[i].pc.Exiting? {
        return;
      }
      deferred := Drain(false, deferred);
      if !world.acts[i].pc.Exiting? && !deferred {
        var head := ProcessBacklog(AtPostDrain);
        deferred := head != [];
      }
    }

    // ------------------------------------------------------- the whole activation

    /** LoadSnapshot; a failed load starts from nothing. */
    method LoadMemory()
      requires Valid() && Me().pc == Loading
      modifies this`world, this`trace, this`script, this`memory, this`skip
      ensures Valid() && |script| <= |old(script)| && Me().agent == old(Me().agent) && Me().pc == Querying(AtCold)
      ensures |script| == |old(script)| ==>
                && script == old(script) && Still(old(world), world, i) && world.log == old(world.log)
                && memory == SnapshotOf(old(world.snapshots), Me().agent)
    {
      hide Inv, Exec, Step, Scripted;
      Interfere();
      var ok := true;
      if script != [] && script[0].LoadFails? {
        var _ := NextReply();
        ok := false;
      }
      Move(Load(ok));
      memory := if ok then SnapshotOf(world.snapshots, world.acts[i].agent) else [];
    }

    /** The idle timer: save and leave, leave without saving when evicted, or wait on. */
    method Idle() returns (exited: bool)
      requires Valid() && Me().pc == Selecting
      modifies this`world, this`trace, this`script
      ensures Linked() && |script| <= |old(script)| && Me().agent == old(Me().agent)
      ensures exited ==> Me().pc == Exiting
      ensures !exited ==> Valid() && world == old(world)
      ensures !exited && ((old(script) != [] && old(script)[0].TimerFires?) || Me().mailbox == []) ==> |script| < |old(script)|
      ensures old(script) == [] && old(Me().mailbox) == [] && !old(Me().evicted) ==>
                exited && world == Passivate(old(world), i)
    {
      hide Inv, Exec, Step, Scripted, Passivate;
      if script != [] && script[0].TimerFires? {
        var _ := NextReply();
      }
      if world.acts[i].mailbox == [] && !world.acts[i].evicted {
        if script != [] && script[0].SaveFails? {
          var _ := NextReply();
          return false;
        }
        SaveSteps(c, world, i);
        Take(IdleSave(i));
        return true;
      }
      if world.acts[i].evicted {
        Move(IdleEvicted);
        return true;
      }
      return false;
    }

    /** Load and replay: the part of loop before its warm select. */
    method ColdStart() returns (deferred: bool)
      requires Valid() && Me().pc == Loading
      modifies this`world, this`trace, this`script, this`memory, this`skip
      ensures Valid() && |script| <= |old(script)| && Me().agent == old(Me().agent)
      ensures !Me().pc.Exiting? ==> Me().pc == Selecting && Me().deferred == deferred
      ensures Me().pc.Exiting? ==> Unwinds(old(script))
      ensures |script| == |old(script)| && old(Me().mailbox) == [] && !old(Me().cancelled) ==>
                Me().mailbox == [] && Replayed(handle, i, old(Now()), Now())
    {
      hide Inv, Exec, Step, Scripted, Still, PendingIds, Folded, Replayed;
      LoadMemory();
      ghost var loaded, n := Now(), |script|;
      if n == |old(script)| {
        StillFlags(old(world), world, i);
      }
      var head := ProcessBacklog(AtCold);
      ghost var folded := Now();
      if |script| == n {
        StillFlags(loaded.world, world, i);
      }
      if world.acts[i].pc.Exiting? {
        return false;
      }
      deferred := Drain(true, head != []);
      if |script| == |old(script)| && old(Me().mailbox) == [] && !old(Me().cancelled) {
        FoldedMoves(handle, i, loaded, folded, Now());
        StillSteps(loaded.world, folded.world, world, i);
        ReplayedBy(handle, i, old(Now()), loaded, Now());
      }
    }

    /** One turn of the warm select. Several cases can be ready; any of them may win.
        Left alone with an empty mailbox the actor passivates. */
    method SelectOnce(deferred0: bool) returns (running: bool, deferred: bool)
      requires Valid() && Me().pc == Selecting && Me().deferred == deferred0
      modifies this`world, this`trace, this`script, this`memory, this`skip
      ensures Linked() && |script| <= |old(script)|
      ensures running ==> Valid() && Me().pc == Selecting && Me().deferred == deferred
      ensures running ==> |script| < |old(script)| || |Me().mailbox| < |old(Me().mailbox)|
      ensures !running ==> Me().pc == Exiting
      ensures old(script) == [] && old(Me().mailbox) == [] && !old(Me().evicted) && !old(Me().cancelled) ==>
                !running && world == Passivate(old(world), i)
    {
      hide Inv, Exec, Step, Scripted, Still, PendingIds, Passivate;
      running, deferred := true, deferred0;
      Interfere();
      if
      case world.acts[i].cancelled =>
        Move(SeeDone);
        running := false;
      case world.acts[i].mailbox != [] =>
        deferred := WarmRound(deferred);
        running := !world.acts[i].pc.Exiting?;
      case script != [] && script[0].TimerFires? =>
        var exited := Idle();
        running := !exited;
      case world.acts[i].mailbox == [] && !world.acts[i].cancelled =>
        if script != [] && !script[0].TimerFires? {
          var _ := NextReply();
        } else {
          var exited := Idle();
          running := !exited;
        }
    }

    /** loop: one activation from start to deregistration, against any finite
        environment, handler panics included. Left alone it loads the snapshot, folds
        the handler over its ordered backlog, marks exactly those rows, saves the
        result and leaves. */
    method Loop()
      requires Valid() && Me().pc == Loading
      modifies this`world, this`trace, this`script, this`memory, this`skip
      ensures Linked() && Me().pc == Gone
      ensures old(script) == [] && old(Me().mailbox) == [] && !old(Me().evicted) && !old(Me().cancelled) ==>
                Completed(handle, i, old(world), world)
    {
      hide Inv, Exec, Step, Scripted, Still, Replayed, Completed, Passivate;
      ghost var quiet := script == [] && Me().mailbox == [] && !Me().evicted && !Me().cancelled;
      var deferred := ColdStart();
      if quiet {
        ReplayedFlags(handle, i, old(Now()), Now());
      }
      var running := !world.acts[i].pc.Exiting?;
      while running
        invariant Linked() && |script| <= |old(script)|
        invariant running ==> Valid() && Me().pc == Selecting && Me().deferred == deferred
        invariant !running ==> Me().pc == Exiting
        invariant quiet && running ==>
                    Me().mailbox == [] && !Me().cancelled && !Me().evicted && Replayed(handle, i, old(Now()), Now())
        invariant quiet && !running ==> Completed(handle, i, old(world), world)
        decreases if running then 1 else 0, |script|, |Me().mailbox|
      {
        ghost var here := Now();
        running, deferred := SelectOnce(deferred);
        if quiet {
          SavedIsCompleted(handle, i, old(Now()), here);
        }
      }
      LeaveSteps(c, handle, old(world), world, i);
      Take(Deregister(i));
    }
  }
}
