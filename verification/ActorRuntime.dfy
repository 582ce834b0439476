/** The mutex-guarded methods of the runtime, on its own fields. Each one is
    proved to be the corresponding step of the protocol. */
module ActorRuntime {
  import opened Updates
  import opened ActorProtocol
  import opened ActorRuns
  import Identity

  datatype SendResult = Delivered | RequiredMissing | AppendFailed | Closed | InboxFull | CapRefused | WaitingForRoom

  lemma AppendStep(c: Config, s: State, u: Update)
    requires u.id != [] && u.toAgent != []
    ensures Step(c, s, SendAppend(u)) == Appended(s, u)
  {
  }

  lemma WaitSteps(c: Config, s: State, id: Text)
    requires id in s.waiting && id in s.log && s.waiting[id] < |s.acts|
    ensures Step(c, s, BlockedTimeout(id)) == s.(waiting := s.waiting - {id}, owed := s.owed + {id})
    ensures Step(c, s, BlockedDeliver(id)) == Unpark(c, s, id)
  {
    hide Unpark;
  }

  predicate Holder(resident: map<Text, nat>, acts: seq<Act>, i: nat) {
    i < |acts| && acts[i].agent in resident && resident[acts[i].agent] == i
  }

  /** Stop's loop over the resident map. */
  method EvictEach(resident: map<Text, nat>, acts: seq<Act>) returns (out: seq<Act>)
    requires forall g :: g in resident ==> resident[g] < |acts| && acts[resident[g]].agent == g
    ensures |out| == |acts|
    ensures forall i :: 0 <= i < |acts| ==>
              out[i] == if Holder(resident, acts, i) then acts[i].(evicted := true, cancelled := true) else acts[i]
  {
    out := acts;
    var todo := resident.Keys;
    while todo != {}
      invariant todo <= resident.Keys && |out| == |acts|
      invariant forall i :: 0 <= i < |acts| ==>
                  out[i] == if Holder(resident, acts, i) && acts[i].agent !in todo
                            then acts[i].(evicted := true, cancelled := true) else acts[i]
      decreases |todo|
    {
      var g :| g in todo;
      out := out[resident[g] := out[resident[g]].(evicted := true, cancelled := true)];
      todo := todo - {g};
    }
  }

  /** A new goroutine: nothing loaded, received, skipped or flagged. */
  predicate IsFresh(a: Act, agent: Text) {
    && a.agent == agent && a.pc == Loading && a.mailbox == [] && a.skip == {} && a.memory == []
    && !a.deferred && !a.evicted && !a.cancelled
  }

  /** Old entries and activations stay as they are; every new entry is a fresh
      activation of one of the agents. */
  ghost predicate StartsOnly(resident0: map<Text, nat>, acts0: seq<Act>, resident: map<Text, nat>, acts: seq<Act>, agents: seq<Text>) {
    && |acts0| <= |acts| && acts[..|acts0|] == acts0
    && (forall g :: g in resident0 ==> g in resident && resident[g] == resident0[g])
    && (forall g :: g in resident && g !in resident0 ==>
          g in agents && |acts0| <= resident[g] < |acts| && IsFresh(acts[resident[g]], g))
  }

  lemma StartsNone(resident: map<Text, nat>, acts: seq<Act>, agents: seq<Text>)
    ensures StartsOnly(resident, acts, resident, acts, agents)
  {
  }

  lemma StartsMore(resident0: map<Text, nat>, acts0: seq<Act>, resident: map<Text, nat>, acts: seq<Act>, acts': seq<Act>, agents: seq<Text>, g: Text)
    requires StartsOnly(resident0, acts0, resident, acts, agents) && g in agents && g !in resident
    requires |acts'| == |acts| + 1 && acts'[..|acts|] == acts && IsFresh(acts'[|acts|], g)
    ensures StartsOnly(resident0, acts0, resident[g := |acts|], acts', agents)
  {
    hide IsFresh;
    assert acts'[..|acts0|] == acts'[..|acts|][..|acts0|];
  }

  class Runtime {
    const c: Config
    var log: Log
    var resident: map<Text, nat>
    var acts: seq<Act>
    var closed: bool
    // What the runtime does not hold itself: other goroutines, history, snapshots.
    ghost var rest: State

    ghost function View(): State
      reads this
    {
      rest.(log := log, resident := resident, acts := acts, closed := closed)
    }

    ghost predicate Valid()
      reads this
    {
      && LogOk(log)
      && forall g :: g in resident ==> resident[g] < |acts| && acts[resident[g]].agent == g
    }

    constructor (c: Config, log: Log, ghost world: State)
      requires LogOk(log) && world == Init().(log := log)
      ensures Valid() && View() == world && this.c == c
    {
      this.c, this.log, this.resident, this.acts, this.closed := c, log, map[], [], false;
      this.rest := world;
    }

    /** The head of Send: trim both ids, date an undated update, refuse the
        incomplete, append once. A resend of a logged id, or a failed append,
        changes nothing and delivers nothing. Time 0 is the unset creation time. */
    method SendHead(u0: Update, now: int, appendFails: bool) returns (r: SendResult, appended: bool, u: Update)
      requires Valid()
      modifies this
      ensures Valid()
      ensures u.id == Identity.TrimSpace(u0.id) && u.toAgent == Identity.TrimSpace(u0.toAgent)
      ensures u.createdAt == if u0.createdAt != 0 then u0.createdAt else now
      ensures u.fromAgent == u0.fromAgent && u.kind == u0.kind && u.content == u0.content && u.trajectory == u0.trajectory
      ensures r.RequiredMissing? <==> Identity.TrimSpace(u0.id) == [] || Identity.TrimSpace(u0.toAgent) == []
      ensures r.AppendFailed? <==> appendFails && Identity.TrimSpace(u0.id) != [] && Identity.TrimSpace(u0.toAgent) != []
      ensures !r.Delivered? ==> !appended && View() == old(View())
      ensures r.Delivered? || r.RequiredMissing? || r.AppendFailed?
      ensures r.Delivered? ==> View() == Step(c, old(View()), SendAppend(u))
      ensures r.Delivered? ==> u.id in log && (appended <==> Identity.TrimSpace(u0.id) !in old(log))
      ensures appended ==> log == old(log)[Identity.TrimSpace(u0.id) := Row(u, false)]
      ensures !appended ==> log == old(log)
    {
      hide Identity.TrimSpace, Step;
      u := u0.(toAgent := Identity.TrimSpace(u0.toAgent), id := Identity.TrimSpace(u0.id));
      if u.createdAt == 0 {
        u := u.(createdAt := now);
      }
      r, appended := RequiredMissing, false;
      if u.toAgent == [] || u.id == [] {
        return;
      }
      if appendFails {
        r := AppendFailed;
        return;
      }
      AppendStep(c, View(), u);
      appended := u.id !in log;
      if appended {
        log := log[u.id := Row(u, false)];
        rest := rest.(inflight := rest.inflight + {u.id});
      }
      r := Delivered;
    }

    /** activateLocked: a new goroutine with an empty mailbox, unless the cap refuses. */
    method ActivateLocked(agent: Text) returns (ok: bool)
      requires Valid()
      modifies this`resident, this`acts, this`rest
      ensures Valid() && (ok <==> !(c.maxResident > 0 && |old(resident)| >= c.maxResident))
      ensures ok ==> resident == old(resident)[agent := |old(acts)|] && |acts| == |old(acts)| + 1 && acts[..|old(acts)|] == old(acts)
      ensures ok ==> IsFresh(acts[|old(acts)|], agent)
      ensures !ok ==> resident == old(resident) && acts == old(acts)
      ensures View() == if ok then Activate(old(View()), agent) else old(View())
    {
      if c.maxResident > 0 && |resident| >= c.maxResident {
        return false;
      }
      rest := rest.(owed := rest.owed - RowsOf(log, agent));
      resident := resident[agent := |acts|];
      acts := acts + [Started(agent)];
      return true;
    }

    /** The warm branch of Send. */
    method SteerLocked(i: nat, u: Update) returns (r: SendResult)
      requires Valid() && i < |acts|
      modifies this`acts, this`rest
      ensures Valid() && View() == Steer(c, old(View()), i, u)
      ensures r.InboxFull? <==> c.mode == NonBlocking && |old(acts)[i].mailbox| >= c.capacity
      ensures r.WaitingForRoom? <==> c.mode == Blocking
      ensures r.InboxFull? || r.WaitingForRoom? || r.Delivered?
      ensures |acts| == |old(acts)| && forall j :: 0 <= j < |acts| && j != i ==> acts[j] == old(acts)[j]
      ensures acts[i].mailbox == old(acts)[i].mailbox + if c.mode != Blocking && |old(acts)[i].mailbox| < c.capacity then [u] else []
      ensures acts[i].agent == old(acts)[i].agent && acts[i].pc == old(acts)[i].pc
    {
      hide LogOk;
      if c.mode == Blocking {
        rest := rest.(waiting := rest.waiting[u.id := i]);
        return WaitingForRoom;
      }
      if |acts[i].mailbox| < c.capacity {
        acts := acts[i := acts[i].(mailbox := acts[i].mailbox + [u], received := acts[i].received + [u])];
        return Delivered;
      }
      acts := acts[i := acts[i].(overflow := acts[i].overflow + {u.id})];
      return if c.mode == Legacy then Delivered else InboxFull;
    }

    /** The agent is registered and not being evicted. */
    predicate HasLive(agent: Text)
      reads this
      requires Valid()
    {
      agent in resident && !acts[resident[agent]].evicted
    }

    /** The locked half of Send. Whatever it answers, the row stays in the log. */
    method SendLocked(u: Update) returns (r: SendResult)
      requires Valid() && u.id in log && log[u.id].update == u
      modifies this`resident, this`acts, this`rest
      ensures Valid() && View() == Deliver(c, old(View()), u)
      ensures log == old(log) && closed == old(closed)
      ensures r.Closed? <==> closed
      ensures r.CapRefused? <==> !closed && !old(HasLive(u.toAgent)) && c.maxResident > 0 && |old(resident)| >= c.maxResident
      ensures r.Closed? || r.CapRefused? ==> resident == old(resident) && acts == old(acts)
      ensures !closed && !old(HasLive(u.toAgent)) && !r.CapRefused? ==>
                && r.Delivered? && resident == old(resident)[u.toAgent := |old(acts)|]
                && |acts| == |old(acts)| + 1 && acts[..|old(acts)|] == old(acts) && IsFresh(acts[|old(acts)|], u.toAgent)
      ensures !closed && old(HasLive(u.toAgent)) ==>
                var i := resident[u.toAgent]; var room := |old(acts)[i].mailbox| < c.capacity;
                && resident == old(resident) && |acts| == |old(acts)| && (forall j :: 0 <= j < |acts| && j != i ==> acts[j] == old(acts)[j])
                && acts[i].mailbox == old(acts)[i].mailbox + (if c.mode != Blocking && room then [u] else [])
                && r == if c.mode == Blocking then WaitingForRoom else if room || c.mode == Legacy then Delivered else InboxFull
    {
      hide Activate, Steer, LogOk;
      rest := rest.(inflight := rest.inflight - {u.id});
      if closed {
        rest := rest.(owed := rest.owed + {u.id});
        return Closed;
      }
      if u.toAgent !in resident || acts[resident[u.toAgent]].evicted {
        var ok := ActivateLocked(u.toAgent);
        if !ok {
          rest := rest.(owed := rest.owed + {u.id});
          return CapRefused;
        }
        return Delivered;
      }
      r := SteerLocked(resident[u.toAgent], u);
    }

    /** A blocking Send finds room in the channel it took under the lock, whether
        that is still the agent's channel or not. */
    method TakeRoom(i: nat, u: Update)
      requires Valid() && i < |acts| && u.id in log && log[u.id].update == u
      requires u.id in rest.waiting && rest.waiting[u.id] == i && |acts[i].mailbox| < c.capacity
      modifies this`acts, this`rest
      ensures Valid() && View() == Unpark(c, old(View()), u.id)
      ensures |acts| == |old(acts)| && acts[i].mailbox == old(acts)[i].mailbox + [u]
      ensures resident == old(resident) && forall j :: 0 <= j < |acts| && j != i ==> acts[j] == old(acts)[j]
    {
      hide LogOk, Step;
      if Registered(View(), i) {
        rest := rest.(waiting := rest.waiting - {u.id}, owed := rest.owed + {});
      } else {
        rest := rest.(waiting := rest.waiting - {u.id}, owed := rest.owed + {u.id});
      }
      acts := acts[i := Push(acts[i], u)];
    }

    /** The wait of a blocking Send: room, or the timeout or the end of its context. */
    method AwaitRoom(i: nat, u: Update, gaveUp: bool) returns (r: SendResult)
      requires Valid() && i < |acts| && u.id in log && log[u.id].update == u
      requires u.id in rest.waiting && rest.waiting[u.id] == i
      requires gaveUp || |acts[i].mailbox| < c.capacity
      modifies this`acts, this`rest
      ensures Valid() && View() == Step(c, old(View()), if gaveUp then BlockedTimeout(u.id) else BlockedDeliver(u.id))
      ensures r == if gaveUp then InboxFull else Delivered
      ensures |acts| == |old(acts)| && acts[i].mailbox == old(acts)[i].mailbox + if gaveUp then [] else [u]
      ensures resident == old(resident) && forall j :: 0 <= j < |acts| && j != i ==> acts[j] == old(acts)[j]
    {
      hide LogOk, Step, Unpark;
      WaitSteps(c, View(), u.id);
      if gaveUp {
        rest := rest.(waiting := rest.waiting - {u.id}, owed := rest.owed + {u.id});
        return InboxFull;
      }
      TakeRoom(i, u);
      return Delivered;
    }

    /** The locked loop of Sweep. Without an error every listed agent is resident. */
    method SweepLocked(agents: seq<Text>) returns (ok: bool)
      requires Valid()
      modifies this`resident, this`acts, this`rest
      ensures Valid() && View() == if closed then old(View()) else SweepAll(c, old(View()), agents)
      ensures ok <==> !closed && !SweepRefused(c, old(View()), agents)
      ensures ok ==> forall g :: g in agents ==> g in resident
      ensures !ok ==> closed || (c.maxResident > 0 && |resident| >= c.maxResident)
      ensures StartsOnly(old(resident), old(acts), resident, acts, agents)
    {
      hide Activate, LogOk, StartsOnly, IsFresh;
      StartsNone(resident, acts, agents);
      if closed {
        return false;
      }
      for n := 0 to |agents|
        invariant Valid() && !closed
        invariant SweepAll(c, old(View()), agents) == SweepAll(c, View(), agents[n..])
        invariant SweepRefused(c, old(View()), agents) == SweepRefused(c, View(), agents[n..])
        invariant forall k :: 0 <= k < n ==> agents[k] in resident
        invariant StartsOnly(old(resident), old(acts), resident, acts, agents)
      {
        assert agents[n..][0] == agents[n] && agents[n..][1..] == agents[n + 1..];
        if agents[n] in resident {
          continue;
        }
        ghost var resident0, acts0 := resident, acts;
        var ok := ActivateLocked(agents[n]);
        if !ok {
          return false;
        }
        StartsMore(old(resident), old(acts), resident0, acts0, acts, agents, agents[n]);
      }
      assert agents[|agents|..] == [];
      return true;
    }

    method EvictAgent(agent: Text) returns (found: bool)
      requires Valid()
      modifies this
      ensures Valid() && (found <==> agent in resident)
      ensures View() == Step(c, old(View()), Evict(agent))
      ensures resident == old(resident) && log == old(log)
      ensures acts == if found then old(acts)[resident[agent] := old(acts)[resident[agent]].(evicted := true)] else old(acts)
    {
      found := agent in resident;
      if found {
        var i := resident[agent];
        acts := acts[i := acts[i].(evicted := true)];
      }
    }

    /** Stop: everyone resident is evicted and cancelled under one lock. */
    method StopAll()
      requires Valid()
      modifies this
      ensures Valid() && View() == Stopped(old(View()))
      ensures closed && resident == old(resident) && log == old(log) && |acts| == |old(acts)|
      ensures forall i :: 0 <= i < |acts| ==>
                acts[i] == if acts[i].agent in resident && resident[acts[i].agent] == i
                           then old(acts)[i].(evicted := true, cancelled := true) else old(acts)[i]
    {
      closed := true;
      acts := EvictEach(resident, acts);
      assert acts == Stopped(old(View())).acts;
    }

    /** deregister compares identities: it removes only its own entry. */
    method Leave(i: nat)
      requires Valid() && i < |acts|
      modifies this`resident, this`rest
      ensures Valid() && View() == Unregister(old(View()), i)
      ensures resident == if acts[i].agent in old(resident) && old(resident)[acts[i].agent] == i
                          then old(resident) - {acts[i].agent} else old(resident)
      ensures forall g :: g in old(resident) && old(resident)[g] != i ==> g in resident && resident[g] == old(resident)[g]
    {
      hide Unspoken, LogOk;
      var g := acts[i].agent;
      if g in resident && resident[g] == i {
        rest := rest.(owed := rest.owed + Unspoken(View(), g));
        resident := resident - {g};
      }
    }
  }
}
