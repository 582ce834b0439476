/** Two reachable runs in which an actor passivates over a pending row with no
    eviction, panic, deferral, crash or cap: a failure in the cold drain, and a
    blocking Send that gives up. */
module ActorStranding {
  import opened Updates
  import opened ActorProtocol
  import opened ActorInvariants
  import opened ActorRuns
  import opened ActorFates

  predicate Uncapped(c: Config) {
    c.capacity >= 1 && c.maxResident == 0
  }

  /** Only act 0 of agent g exists and nothing is in flight. */
  function Alone(g: Text, log: Log, calls: set<Call>, a: Act): State {
    State(log, map[], map[g := 0], [a], false, false, {}, {}, map[], [], {}, calls)
  }

  lemma LocalAlone(c: Config, g: Text, log: Log, calls: set<Call>, a: Act, e: Event)
    requires GoodQuery(log, a, e)
    ensures Step(c, Alone(g, log, calls, a), Own(0, e)) == Alone(g, log, calls, Local(map[], a, e))
  {
    hide Local;
  }

  lemma HandledAlone(c: Config, g: Text, log: Log, calls: set<Call>, a: Act)
    requires a.pc.Handling?
    ensures Step(c, Alone(g, log, calls, a), HandleOk(0, []))
         == Alone(g, log, calls + {Call(0, a.pc.u, a.memory, [])}, a.(pc := Marking(a.pc.u, [], a.pc.work)))
  {
  }

  lemma MarkedAlone(c: Config, g: Text, log: Log, calls: set<Call>, a: Act)
    requires a.pc.Marking?
    ensures Step(c, Alone(g, log, calls, a), MarkOk(0))
         == Alone(g, MarkProcessed(log, a.agent, a.pc.u.id), calls, MarkOkAct(0, a))
  {
    hide MarkOkAct, MarkProcessed;
  }

  /** A Send finds the actor warm and its mailbox empty. */
  lemma SendAlone(c: Config, log: Log, calls: set<Call>, a: Act, u: Update)
    requires Uncapped(c) && c.mode != Blocking
    requires u.id != [] && u.toAgent != [] && u.id !in log && a.mailbox == [] && !a.evicted
    ensures Step(c, Step(c, Alone(u.toAgent, log, calls, a), SendAppend(u)), SendLock(u.id))
         == Alone(u.toAgent, log[u.id := Row(u, false)], calls, Push(a, u))
  {
    AppendAlone(c, log, calls, a, u);
    assert {u.id} - {u.id} == {};
  }

  lemma AppendAlone(c: Config, log: Log, calls: set<Call>, a: Act, u: Update)
    requires u.id != [] && u.toAgent != [] && u.id !in log
    ensures Step(c, Alone(u.toAgent, log, calls, a), SendAppend(u))
         == Alone(u.toAgent, log[u.id := Row(u, false)], calls, a).(inflight := {u.id})
  {
    assert {} + {u.id} == {u.id};
  }

  /** The first Send finds the agent cold and activates it. */
  lemma FirstSend(c: Config, u: Update)
    requires Uncapped(c) && u.id != [] && u.toAgent != []
    ensures Step(c, Step(c, Init(), SendAppend(u)), SendLock(u.id))
         == Alone(u.toAgent, map[u.id := Row(u, false)], {}, Started(u.toAgent))
  {
    var t := Init().(log := map[u.id := Row(u, false)], inflight := {u.id});
    assert {} + {u.id} == {u.id};
    assert Step(c, Init(), SendAppend(u)) == t;
    assert t.(inflight := t.inflight - {u.id}) == Init().(log := t.log);
  }

  lemma {:induction false} ExecCons(c: Config, s: State, l: Label, ls: seq<Label>)
    ensures Exec(c, s, [l] + ls) == Exec(c, Step(c, s, l), ls)
  {
    hide Step;
    ExecConcat(c, s, [l], ls);
    ExecSnoc(c, s, [], l);
    assert [] + [l] == [l];
  }

  lemma Exec2(c: Config, s: State, k: Label, l: Label)
    ensures Exec(c, s, [k, l]) == Step(c, Step(c, s, k), l)
  {
    hide Step;
    ExecNone(c, s);
    ExecSnoc(c, s, [], k);
    ExecSnoc(c, s, [k], l);
    assert [] + [k] == [k] && [k] + [l] == [k, l];
  }

  lemma Exec3(c: Config, s: State, k: Label, l: Label, m: Label)
    ensures Exec(c, s, [k, l, m]) == Step(c, Step(c, Step(c, s, k), l), m)
  {
    hide Step;
    Exec2(c, s, k, l);
    ExecSnoc(c, s, [k, l], m);
    assert [k, l] + [m] == [k, l, m];
  }

  lemma ExecNone(c: Config, s: State)
    ensures Exec(c, s, []) == s
  {
  }

  // ---------------------------------------------------------------- the first row

  function Scan(u: Update): seq<Label> {
    [Own(0, Load(true)), Own(0, Query([u])), Own(0, Advance)]
  }

  /** From nothing to the handler call on u. */
  function FirstCall(u: Update): seq<Label> {
    [SendAppend(u), SendLock(u.id)] + Scan(u)
  }

  function Calling(u: Update): Act {
    Started(u.toAgent).(pc := Handling(u, InBacklog(AtCold, [u], 0)))
  }

  function CallingState(u: Update): State {
    Alone(u.toAgent, map[u.id := Row(u, false)], {}, Calling(u))
  }

  lemma ScanFirst(c: Config, u: Update)
    ensures Exec(c, Alone(u.toAgent, map[u.id := Row(u, false)], {}, Started(u.toAgent)), Scan(u)) == CallingState(u)
  {
    hide Step, Exec;
    var g := u.toAgent;
    var log: Log := map[u.id := Row(u, false)];
    var a0 := Started(g);
    LocalAlone(c, g, log, {}, a0, Load(true));
    var a1 := Local(map[], a0, Load(true));
    assert IsBacklog(log, g, [u]) by {
      assert [u][0].id == u.id;
    }
    LocalAlone(c, g, log, {}, a1, Query([u]));
    var a2 := Local(map[], a1, Query([u]));
    LocalAlone(c, g, log, {}, a2, Advance);
    Exec3(c, Alone(g, log, {}, a0), Own(0, Load(true)), Own(0, Query([u])), Own(0, Advance));
  }

  lemma HandleFirst(c: Config, u: Update)
    requires Uncapped(c) && u.id != [] && u.toAgent != []
    ensures Exec(c, Init(), FirstCall(u)) == CallingState(u)
  {
    hide Step, Exec;
    FirstSend(c, u);
    Exec2(c, Init(), SendAppend(u), SendLock(u.id));
    ScanFirst(c, u);
    ExecConcat(c, Init(), [SendAppend(u), SendLock(u.id)], Scan(u));
  }

  function Marked(u: Update): Act {
    Calling(u).(pc := Scanning(AtCold, [u], 1), skip := {u.id}, folded := [Call(0, u, [], [])])
  }

  function MarkedState(u: Update): State {
    Alone(u.toAgent, map[u.id := Row(u, true)], {Call(0, u, [], [])}, Marked(u))
  }

  lemma MarkFirst(c: Config, u: Update)
    ensures Exec(c, CallingState(u), [HandleOk(0, []), MarkOk(0)]) == MarkedState(u)
  {
    hide Step, Exec;
    var log: Log := map[u.id := Row(u, false)];
    var calls := {Call(0, u, [], [])};
    HandledAlone(c, u.toAgent, log, {}, Calling(u));
    assert {} + calls == calls;
    var b := Calling(u).(pc := Marking(u, [], InBacklog(AtCold, [u], 0)));
    MarkedAlone(c, u.toAgent, log, calls, b);
    assert MarkProcessed(log, u.toAgent, u.id) == map[u.id := Row(u, true)];
    assert {} + {u.id} == {u.id};
    assert MarkOkAct(0, b) == Marked(u);
    Exec2(c, CallingState(u), HandleOk(0, []), MarkOk(0));
  }

  /** Act 0 after it replayed u and found the log drained. */
  function Replayed(u: Update): Act {
    Marked(u).(pc := ColdDraining)
  }

  function ReplayedState(u: Update): State {
    Alone(u.toAgent, map[u.id := Row(u, true)], {Call(0, u, [], [])}, Replayed(u))
  }

  function Replay(u: Update): seq<Label> {
    FirstCall(u) + [HandleOk(0, []), MarkOk(0)] + [Own(0, Advance), Own(0, Query([]))]
  }

  lemma DrainFirst(c: Config, u: Update)
    ensures Exec(c, MarkedState(u), [Own(0, Advance), Own(0, Query([]))]) == ReplayedState(u)
  {
    hide Step, Exec;
    var log: Log := map[u.id := Row(u, true)];
    var calls := {Call(0, u, [], [])};
    LocalAlone(c, u.toAgent, log, calls, Marked(u), Advance);
    var b := Local(map[], Marked(u), Advance);
    assert IsBacklog(log, u.toAgent, []);
    LocalAlone(c, u.toAgent, log, calls, b, Query([]));
    assert Local(map[], b, Query([])) == Replayed(u);
    Exec2(c, MarkedState(u), Own(0, Advance), Own(0, Query([])));
  }

  lemma ReplayFirst(c: Config, u: Update)
    requires Uncapped(c) && u.id != [] && u.toAgent != []
    ensures Exec(c, Init(), Replay(u)) == ReplayedState(u)
  {
    hide Step, Exec;
    HandleFirst(c, u);
    MarkFirst(c, u);
    DrainFirst(c, u);
    ExecConcat(c, Init(), FirstCall(u), [HandleOk(0, []), MarkOk(0)]);
    ExecConcat(c, Init(), FirstCall(u) + [HandleOk(0, []), MarkOk(0)], [Own(0, Advance), Own(0, Query([]))]);
  }

  lemma PassivateAlone(c: Config, g: Text, log: Log, calls: set<Call>, a: Act, owed: set<Text>)
    requires a.pc.Selecting? && a.mailbox == [] && !a.evicted && a.agent == g
    ensures var t := Step(c, Alone(g, log, calls, a).(owed := owed), IdleSave(0));
            t.log == log && t.inflight == {} && t.waiting == map[] && t.sweeps == [] && t.resident == map[]
  {
  }

  // ------------------------------------------------------------ cold-drain failure

  function ColdFailure(v: Update): seq<Label> {
    [SendAppend(v), SendLock(v.id)] + [Own(0, Receive), Own(0, HandleFail), Own(0, ColdEmpty)] + [IdleSave(0)]
  }

  lemma ReceiveOne(a: Act, v: Update)
    requires a.pc.ColdDraining? && a.mailbox == [v] && !a.deferred && v.id !in a.skip
    ensures Local(map[], a, Receive) == a.(mailbox := [], pc := Handling(v, InChannel(FromColdDrain)))
  {
    assert [v][1..] == [];
  }

  lemma FailOne(a: Act, v: Update)
    requires a.pc == Handling(v, InChannel(FromColdDrain)) && a.missed == {} && a.overflow == {} && a.mailbox == []
    ensures Local(map[], a, HandleFail) == a.(pc := ColdDraining, missed := {v.id})
    ensures Local(map[], a.(pc := ColdDraining, missed := {v.id}), ColdEmpty) == a.(pc := Selecting, missed := {v.id})
  {
    assert {} + {v.id} == {v.id} && {v.id} + {} == {v.id};
  }

  /** Receive, fail, find the mailbox empty: the actor waits with nothing to query. */
  lemma ColdFailureEnds(u: Update, v: Update) returns (f: Act)
    requires u.id != v.id
    ensures f == Local(map[], Local(map[], Local(map[], Push(Replayed(u), v), Receive), HandleFail), ColdEmpty)
    ensures f.pc.Selecting? && f.mailbox == [] && !f.evicted && f.agent == u.toAgent && f.missed == {v.id} && !f.deferred
  {
    hide Local;
    var b := Push(Replayed(u), v);
    assert b.mailbox == [v];
    ReceiveOne(b, v);
    FailOne(b.(mailbox := [], pc := Handling(v, InChannel(FromColdDrain))), v);
    f := b.(mailbox := [], pc := Selecting, missed := {v.id});
  }

  /** A Send that lands in the mailbox during the cold drain and whose handler
      call fails once is stranded: the actor passivates with the row pending, no
      Send in flight and nobody resident. processOne's promise that the next
      processBacklog catches the row fails exactly here. */
  lemma ColdDrainFailureStrands(c: Config, u: Update, v: Update)
    requires Uncapped(c) && c.mode != Blocking
    requires u.id != [] && v.id != [] && u.id != v.id && u.toAgent == v.toAgent != []
    ensures Abandoned(Exec(c, Init(), Replay(u) + ColdFailure(v)), v.toAgent, v.id)
  {
    hide Step, Exec, Local, Push;
    var g := u.toAgent;
    var calls := {Call(0, u, [], [])};
    var log: Log := map[u.id := Row(u, true)];
    var log' := log[v.id := Row(v, false)];
    ReplayFirst(c, u);
    SendAlone(c, log, calls, Replayed(u), v);
    var b := Push(Replayed(u), v);
    LocalAlone(c, g, log', calls, b, Receive);
    LocalAlone(c, g, log', calls, Local(map[], b, Receive), HandleFail);
    LocalAlone(c, g, log', calls, Local(map[], Local(map[], b, Receive), HandleFail), ColdEmpty);
    var f := ColdFailureEnds(u, v);
    PassivateAlone(c, g, log', calls, f, {});
    var s := ReplayedState(u);
    Exec2(c, s, SendAppend(v), SendLock(v.id));
    Exec3(c, Alone(g, log', calls, b), Own(0, Receive), Own(0, HandleFail), Own(0, ColdEmpty));
    ExecConcat(c, s, [SendAppend(v), SendLock(v.id)], [Own(0, Receive), Own(0, HandleFail), Own(0, ColdEmpty)]);
    ExecSnoc(c, s, [SendAppend(v), SendLock(v.id)] + [Own(0, Receive), Own(0, HandleFail), Own(0, ColdEmpty)], IdleSave(0));
    ExecConcat(c, Init(), Replay(u), ColdFailure(v));
  }

  // -------------------------------------------------------- a Send that gives up

  function GivenUp(v: Update): seq<Label> {
    [Own(0, ColdEmpty)] + [SendAppend(v), SendLock(v.id), BlockedTimeout(v.id)] + [IdleSave(0)]
  }

  lemma ParkAlone(c: Config, log: Log, calls: set<Call>, a: Act, v: Update)
    requires c.mode == Blocking && v.id != [] && v.toAgent != [] && v.id !in log && !a.evicted
    ensures Step(c, Step(c, Step(c, Alone(v.toAgent, log, calls, a), SendAppend(v)), SendLock(v.id)), BlockedTimeout(v.id))
         == Alone(v.toAgent, log[v.id := Row(v, false)], calls, a).(owed := {v.id})
  {
    AppendAlone(c, log, calls, a, v);
    var s := Alone(v.toAgent, log[v.id := Row(v, false)], calls, a);
    var t := s.(waiting := map[v.id := 0]);
    assert {v.id} - {v.id} == {};
    assert Step(c, s.(inflight := {v.id}), SendLock(v.id)) == t;
    assert t.waiting - {v.id} == map[] && {} + {v.id} == {v.id};
  }

  /** The waiting actor has missed and deferred nothing. */
  lemma WaitsClean(u: Update) returns (f: Act)
    ensures f == Local(map[], Replayed(u), ColdEmpty)
    ensures f.pc.Selecting? && f.mailbox == [] && !f.evicted && f.agent == u.toAgent && f.missed == {} && !f.deferred
  {
    f := Local(map[], Replayed(u), ColdEmpty);
  }

  /** A blocking Send that times out, or whose context ends, after the lock gives
      its row up although the channel had room: the actor passivates over it with
      nothing missed and nothing deferred. */
  lemma TimeoutStrands(c: Config, u: Update, v: Update)
    requires Uncapped(c) && c.mode == Blocking
    requires u.id != [] && v.id != [] && u.id != v.id && u.toAgent == v.toAgent != []
    ensures var before := Exec(c, Init(), Replay(u) + GivenUp(v)[..4]);
            && |before.acts| == 1 && before.acts[0].missed == {} && !before.acts[0].deferred && v.id in before.owed
            && Step(c, before, IdleSave(0)) == Exec(c, Init(), Replay(u) + GivenUp(v))
    ensures Abandoned(Exec(c, Init(), Replay(u) + GivenUp(v)), v.toAgent, v.id)
  {
    hide Step, Exec, Local;
    var g := u.toAgent;
    var calls := {Call(0, u, [], [])};
    var log: Log := map[u.id := Row(u, true)];
    ReplayFirst(c, u);
    var f := WaitsClean(u);
    LocalAlone(c, g, log, calls, Replayed(u), ColdEmpty);
    ParkAlone(c, log, calls, f, v);
    PassivateAlone(c, g, log[v.id := Row(v, false)], calls, f, {v.id});
    var s := ReplayedState(u);
    var sends := [SendAppend(v), SendLock(v.id), BlockedTimeout(v.id)];
    assert GivenUp(v)[..4] == [Own(0, ColdEmpty)] + sends;
    ExecCons(c, s, Own(0, ColdEmpty), sends);
    Exec3(c, Alone(g, log, calls, f), SendAppend(v), SendLock(v.id), BlockedTimeout(v.id));
    ExecConcat(c, Init(), Replay(u), GivenUp(v)[..4]);
    ExecSnoc(c, Init(), Replay(u) + GivenUp(v)[..4], IdleSave(0));
    assert Replay(u) + GivenUp(v) == (Replay(u) + GivenUp(v)[..4]) + [IdleSave(0)];
  }

  // --------------------------------------------------- a sweep that skips an entry

  /** Evicted while it loads, swept over, and gone. */
  function SweptOver(g: Text): seq<Label> {
    [Evict(g), Own(0, Cancel)] + [SweepQuery([g]), SweepLock(0)] +
    [Own(0, Load(true)), Own(0, Bail), Own(0, ColdEmpty)] + [Own(0, SeeDone), Deregister(0)]
  }

  function Evicted(g: Text): Act {
    Started(g).(evicted := true, cancelled := true)
  }

  lemma EvictAlone(c: Config, g: Text, log: Log)
    ensures Exec(c, Alone(g, log, {}, Started(g)), [Evict(g), Own(0, Cancel)]) == Alone(g, log, {}, Evicted(g))
  {
    hide Exec;
    var a := Started(g).(evicted := true);
    assert Step(c, Alone(g, log, {}, Started(g)), Evict(g)) == Alone(g, log, {}, a);
    LocalAlone(c, g, log, {}, a, Cancel);
    Exec2(c, Alone(g, log, {}, Started(g)), Evict(g), Own(0, Cancel));
  }

  lemma SweepAlone(c: Config, u: Update, a: Act)
    ensures var s := Alone(u.toAgent, map[u.id := Row(u, false)], {}, a);
            Exec(c, s, [SweepQuery([u.toAgent]), SweepLock(0)]) == s
  {
    hide Exec;
    var g := u.toAgent;
    var log: Log := map[u.id := Row(u, false)];
    var s := Alone(g, log, {}, a);
    assert IsBacklogged(log, [g]) by {
      assert u.id in log && Pending(log, g, u.id) && g in [g];
    }
    var t := s.(sweeps := [[g]]);
    assert [] + [[g]] == [[g]];
    assert Step(c, s, SweepQuery([g])) == t;
    assert [[g]][..0] + [[g]][1..] == [];
    assert [g][1..] == [];
    assert SweepAll(c, s, [g]) == SweepAll(c, s, [g][1..]);
    assert Step(c, t, SweepLock(0)) == s;
    Exec2(c, s, SweepQuery([g]), SweepLock(0));
  }

  lemma EvictedRunsOut(c: Config, g: Text, log: Log)
    ensures Exec(c, Alone(g, log, {}, Evicted(g)), [Own(0, Load(true)), Own(0, Bail), Own(0, ColdEmpty)])
         == Alone(g, log, {}, Evicted(g).(pc := Selecting))
  {
    hide Exec, Step;
    var a0 := Evicted(g);
    LocalAlone(c, g, log, {}, a0, Load(true));
    var a1 := a0.(pc := Querying(AtCold));
    assert Local(map[], a0, Load(true)) == a1;
    LocalAlone(c, g, log, {}, a1, Bail);
    var a2 := a0.(pc := ColdDraining);
    assert Local(map[], a1, Bail) == a2;
    LocalAlone(c, g, log, {}, a2, ColdEmpty);
    assert Local(map[], a2, ColdEmpty) == a0.(pc := Selecting);
    Exec3(c, Alone(g, log, {}, a0), Own(0, Load(true)), Own(0, Bail), Own(0, ColdEmpty));
  }

  lemma EvictedLeaves(c: Config, g: Text, log: Log)
    ensures var t := Exec(c, Alone(g, log, {}, Evicted(g).(pc := Selecting)), [Own(0, SeeDone), Deregister(0)]);
            t.log == log && t.inflight == {} && t.waiting == map[] && t.sweeps == [] && t.resident == map[]
  {
    hide Exec;
    var a := Evicted(g).(pc := Selecting);
    LocalAlone(c, g, log, {}, a, SeeDone);
    assert Local(map[], a, SeeDone) == Evicted(g).(pc := Exiting);
    Exec2(c, Alone(g, log, {}, a), Own(0, SeeDone), Deregister(0));
  }

  /** A sweep passes over an agent whose evicted activation is still registered;
      that activation then deregisters and the row is left to nobody. */
  lemma SweepSkipsEvicted(c: Config, u: Update)
    requires Uncapped(c) && u.id != [] && u.toAgent != []
    ensures Abandoned(Exec(c, Init(), [SendAppend(u), SendLock(u.id)] + SweptOver(u.toAgent)), u.toAgent, u.id)
  {
    hide Exec, Step;
    var g := u.toAgent;
    var log: Log := map[u.id := Row(u, false)];
    var s := Alone(g, log, {}, Started(g));
    FirstSend(c, u);
    Exec2(c, Init(), SendAppend(u), SendLock(u.id));
    EvictAlone(c, g, log);
    SweepAlone(c, u, Evicted(g));
    EvictedRunsOut(c, g, log);
    EvictedLeaves(c, g, log);
    var l1, l2 := [Evict(g), Own(0, Cancel)], [SweepQuery([g]), SweepLock(0)];
    var l3, l4 := [Own(0, Load(true)), Own(0, Bail), Own(0, ColdEmpty)], [Own(0, SeeDone), Deregister(0)];
    ExecConcat(c, s, l1, l2);
    ExecConcat(c, s, l1 + l2, l3);
    ExecConcat(c, s, l1 + l2 + l3, l4);
    ExecConcat(c, Init(), [SendAppend(u), SendLock(u.id)], SweptOver(g));
  }
}
