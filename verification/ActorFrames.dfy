/** What the composite steps of the protocol leave alone. */
module ActorFrames {
  import opened Updates
  import opened ActorProtocol

  /** The log, the call history and the boot flags are untouched. */
  ghost predicate SameRecord(s: State, t: State) {
    t.log == s.log && t.calls == s.calls && t.ready == s.ready && t.accepted == s.accepted
  }

  /** Activations are only added, each one fresh. */
  ghost predicate OnlyStarts(s: State, t: State) {
    && s.acts <= t.acts
    && forall j :: |s.acts| <= j < |t.acts| ==> t.acts[j] == Started(t.acts[j].agent)
  }

  ghost predicate SameFlights(s: State, t: State) {
    t.inflight == s.inflight && t.waiting == s.waiting
  }

  /** Entries stay as they are; every new one is for a new activation. */
  ghost predicate RegistryGrows(s: State, t: State) {
    && s.resident.Keys <= t.resident.Keys
    && (forall g :: g in s.resident ==> t.resident[g] == s.resident[g])
    && forall g :: g in t.resident && g !in s.resident ==> |s.acts| <= t.resident[g] < |t.acts|
  }

  /** No existing activation is newly registered. */
  ghost predicate OnlyNewEntries(s: State, t: State) {
    forall g :: g in t.resident ==> (g in s.resident && t.resident[g] == s.resident[g]) || t.resident[g] >= |s.acts|
  }

  lemma {:induction false} SweepFrame(c: Config, s: State, agents: seq<Text>)
    ensures var t := SweepAll(c, s, agents);
            && SameRecord(s, t) && OnlyStarts(s, t) && SameFlights(s, t) && RegistryGrows(s, t)
            && t.owed <= s.owed && t.snapshots == s.snapshots
    decreases |agents|
  {
    if agents != [] {
      if agents[0] in s.resident {
        SweepFrame(c, s, agents[1..]);
      } else if !CapReached(c, s) {
        SweepFrame(c, Activate(s, agents[0]), agents[1..]);
      }
    }
  }

  lemma SweptFrame(c: Config, s: State, k: nat)
    requires k < |s.sweeps|
    ensures var t := Swept(c, s, k);
            && SameRecord(s, t) && OnlyStarts(s, t) && SameFlights(s, t) && RegistryGrows(s, t)
            && t.owed <= s.owed && t.snapshots == s.snapshots
  {
    hide SweepAll;
    SweepFrame(c, s.(sweeps := RemoveAt(s.sweeps, k)), s.sweeps[k]);
  }

  lemma DeliverFrame(c: Config, s: State, u: Update)
    ensures var t := Deliver(c, s, u); SameRecord(s, t) && t.snapshots == s.snapshots
  {
  }

  lemma UnparkFrame(c: Config, s: State, id: Text)
    requires id in s.waiting && id in s.log && s.waiting[id] < |s.acts|
    ensures var t := Unpark(c, s, id); SameRecord(s, t) && t.snapshots == s.snapshots
  {
  }

  lemma StoppedFrame(s: State)
    ensures var t := Stopped(s); SameRecord(s, t) && SameFlights(s, t) && t.snapshots == s.snapshots && t.owed == s.owed
  {
  }

  lemma LeavingFrame(s: State, i: nat)
    requires i < |s.acts|
    ensures SameRecord(s, Passivate(s, i)) && SameRecord(s, Unregister(s, i))
    ensures SameFlights(s, Passivate(s, i)) && SameFlights(s, Unregister(s, i))
  {
  }

  lemma StepExtendsLog(c: Config, s: State, l: Label)
    ensures Extends(s.log, Step(c, s, l).log)
  {
    hide Swept, Local, Deliver, MarkOkAct, MarkFailAct, HandleOkAct, MarkProcessed, Stopped, Unpark, Append;
    hide Passivate, Unregister;
    if Enabled(s, l) {
      match l
      case SendLock(id) => DeliverFrame(c, s, s.log[id].update);
      case SweepLock(k) => SweptFrame(c, s, k);
      case BlockedDeliver(id) => UnparkFrame(c, s, id);
      case Stop => StoppedFrame(s);
      case IdleSave(i) => LeavingFrame(s, i);
      case Deregister(i) => LeavingFrame(s, i);
      case _ =>
    }
  }

  lemma StepKeepsBoot(c: Config, s: State, l: Label)
    requires s.ready && l != Crash
    ensures Step(c, s, l).ready && Step(c, s, l).accepted == s.accepted
  {
    hide Swept, Local, Deliver, MarkOkAct, MarkFailAct, HandleOkAct, MarkProcessed, Stopped, Unpark, Append;
    hide Passivate, Unregister;
    if Enabled(s, l) {
      match l
      case SendLock(id) => DeliverFrame(c, s, s.log[id].update);
      case SweepLock(k) => SweptFrame(c, s, k);
      case BlockedDeliver(id) => UnparkFrame(c, s, id);
      case Stop => StoppedFrame(s);
      case IdleSave(i) => LeavingFrame(s, i);
      case Deregister(i) => LeavingFrame(s, i);
      case _ =>
    }
  }

  /** Activation i is in the handler with update u. */
  predicate Calls(s: State, i: nat, u: Update) {
    i < |s.acts| && s.acts[i].pc.Handling? && s.acts[i].pc.u == u
  }

  /** Only a successful handler answer adds to the call history. */
  lemma StepCalls(c: Config, s: State, l: Label, k: Call)
    requires k in Step(c, s, l).calls && k !in s.calls
    ensures l == HandleOk(k.act, k.after) && Calls(s, k.act, k.update)
  {
    hide Swept, Local, Deliver, MarkOkAct, MarkFailAct, HandleOkAct, MarkProcessed, Stopped, Unpark, Append;
    hide Passivate, Unregister;
    match l
    case SendLock(id) => DeliverFrame(c, s, s.log[id].update);
    case SweepLock(n) => SweptFrame(c, s, n);
    case BlockedDeliver(id) => UnparkFrame(c, s, id);
    case Stop => StoppedFrame(s);
    case IdleSave(i) => LeavingFrame(s, i);
    case Deregister(i) => LeavingFrame(s, i);
    case _ =>
  }
}
