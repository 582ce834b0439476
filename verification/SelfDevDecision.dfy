/** Single-use authorization of self-development decisions on one computer: the
    signed mode register, the decision requests, crashes and retries. */
module SelfDevDecision {
  import opened Updates
  import opened Wrappers

  // ------------------------------------------------------------------------ data

  /** What an armed mode and a decision name exactly. */
  datatype Target = Target(
    operation: Text,
    bundle: Text,
    desiredHead: Text,
    effectiveHead: Text,
    pending: Text,
    desiredState: Text,
    effectiveState: Text)

  datatype Mode =
    | Off
    | AuditOnly
    | ProposeOnly
    | AcceptOnce(target: Target, expiry: int)
    | Consensus(target: Target, expiry: int, policy: Text, consensus: Text)

  predicate Armed(m: Mode) {
    m.AcceptOnce? || m.Consensus?
  }

  datatype Decision = Approve | Reject

  /** A decision request as the handler normalises it. */
  datatype Request = Request(
    owner: Text,
    decision: Decision,
    key: Text,
    target: Target,
    verifier: Text,
    reason: Text,
    consensus: Option<Text>)

  /** The preimage of the decision binding digest. Digests are symbolic. */
  datatype Binding = Binding(decision: Decision, key: Text, target: Target, verifier: Text, reason: Text)

  function BindingOf(r: Request): Binding {
    Binding(r.decision, r.key, r.target, r.verifier, r.reason)
  }

  /** Idempotency keys of mode changes. Anyone who may set the mode may use any of them. */
  datatype ModeKey =
    | Chosen(name: Text)
    | AcceptOnceConsumed(operation: Text, binding: Binding)
    | ConsensusConsumed(operation: Text, binding: Binding)
    | ModeExpiry(generation: nat)

  datatype SetRequest = SetRequest(mode: Mode, expectedGeneration: nat, key: ModeKey)

  /** A signed ModeReceipt: the mode it left, with all its bindings, and the mode it entered. */
  datatype Receipt = Receipt(
    oldMode: Mode,
    newMode: Mode,
    oldGeneration: nat,
    newGeneration: nat,
    request: SetRequest,
    issuedAt: int)

  /** Idempotency key of a decision event. */
  datatype EventKey = EventKey(operation: Text, key: Text)

  datatype Event = Event(id: EventKey, kind: Decision, decisionRef: Request, receipt: Receipt)

  /** The bundle and verifiers an operation is frozen with. */
  datatype Frozen = Frozen(bundle: Text, verifiers: set<Text>)

  datatype Pc =
    | Begin
    | ReadingMode
    | Consuming(generation: nat, key: ModeKey)
    | Appending(receipt: Receipt)
    | Decided(event: Event)
    | Refused
    | Failed

  datatype Thread = Thread(req: Request, pc: Pc)

  /** `issued` and `modes` are history: all receipts ever signed, and the mode at
      each generation. */
  datatype State = State(
    mode: Mode,
    generation: nat,
    receipt: Option<Receipt>,
    events: seq<Event>,
    threads: seq<Thread>,
    issued: set<Receipt>,
    modes: seq<Mode>)

  function Init(): State {
    State(Off, 0, None, [], [], {}, [Off])
  }

  // --------------------------------------------------------------- mode register

  /** The register's compare-and-swap, with replay of the last key. */
  datatype SetResult = Stored(state: State, receipt: Receipt) | Conflict

  /** validateSelfDevelopmentModeTransition for the armed modes. */
  predicate ValidMode(m: Mode, now: int) {
    Armed(m) ==> m.expiry > now && m.target.operation != []
  }

  function SetMode(s: State, q: SetRequest, now: int): SetResult {
    if s.receipt.Some? && s.receipt.value.request.key == q.key then
      if s.receipt.value.request == q then Stored(s, s.receipt.value) else Conflict
    else if s.generation != q.expectedGeneration || !ValidMode(q.mode, now) then Conflict
    else
      var r := Receipt(s.mode, q.mode, s.generation, s.generation + 1, q, now);
      Stored(s.(mode := q.mode, generation := s.generation + 1, receipt := Some(r),
                issued := s.issued + {r}, modes := s.modes + [q.mode]), r)
  }

  // --------------------------------------------------------------------- receipts

  function ConsumptionKey(m: Mode, r: Request): ModeKey {
    if m.Consensus? then ConsensusConsumed(r.target.operation, BindingOf(r))
    else AcceptOnceConsumed(r.target.operation, BindingOf(r))
  }

  /** verifyConsumedModeReceipt. */
  predicate Consumed(receipt: Receipt, r: Request) {
    && Armed(receipt.oldMode) && receipt.newMode == ProposeOnly
    && receipt.oldMode.target == r.target
    && receipt.issuedAt <= receipt.oldMode.expiry
    && receipt.request.key == ConsumptionKey(receipt.oldMode, r)
    && r.decision == Approve && r.reason == []
  }

  /** verifyDecisionModeReceipt for the mode just read or set. */
  predicate Authorizes(mode: Mode, receipt: Receipt, r: Request) {
    && mode == ProposeOnly && receipt.newMode == ProposeOnly
    && (if r.decision == Approve then Consumed(receipt, r) else !Armed(receipt.oldMode))
  }

  // --------------------------------------------------------------------- one step

  /** What the world answers: whether the call works, whether the supplied
      consensus bundle reduces to the armed receipt, whether the operation awaits
      approval at the expected head, whether an append is reported, and the time. */
  datatype Answer = Answer(works: bool, consensusOk: bool, awaiting: bool, reported: bool, now: int)

  function FindEvent(events: seq<Event>, id: EventKey): Option<Event>
    decreases |events|
  {
    if events == [] then None
    else if events[0].id == id then Some(events[0])
    else FindEvent(events[1..], id)
  }

  function EventKeyOf(r: Request): EventKey {
    EventKey(r.target.operation, r.key)
  }

  function SetPc(s: State, t: nat, pc: Pc): State
    requires t < |s.threads|
  {
    s.(threads := s.threads[t := s.threads[t].(pc := pc)])
  }

  /** An armed mode past its expiry. */
  predicate Lapsed(m: Mode, now: int) {
    Armed(m) && now >= m.expiry
  }

  /** The branches on the current mode; a lapsed one that could not be turned off is an error. */
  function ReadMode(s: State, r: Request, a: Answer): Pc {
    if s.receipt.None? || Lapsed(s.mode, a.now) then Refused
    else if r.decision == Reject then
      if Authorizes(s.mode, s.receipt.value, r) then Appending(s.receipt.value) else Refused
    else
      match s.mode
      case ProposeOnly => if Consumed(s.receipt.value, r) then Appending(s.receipt.value) else Refused
      case AcceptOnce(target, _) =>
        if target == r.target then Consuming(s.generation, ConsumptionKey(s.mode, r)) else Refused
      case Consensus(target, _, _, _) =>
        if target == r.target && r.consensus.Some? && a.consensusOk
        then Consuming(s.generation, ConsumptionKey(s.mode, r)) else Refused
      case _ => Refused
  }

  /** Reading an armed mode past its expiry turns it off first. */
  function Reconciled(s: State, now: int): State {
    if Lapsed(s.mode, now) then
      match SetMode(s, SetRequest(Off, s.generation, ModeExpiry(s.generation)), now)
      case Stored(s', _) => s'
      case Conflict => s
    else s
  }

  function Consume(s: State, t: nat, generation: nat, key: ModeKey, a: Answer): State
    requires t < |s.threads|
  {
    var r := s.threads[t].req;
    match SetMode(s, SetRequest(ProposeOnly, generation, key), a.now)
    case Conflict => SetPc(s, t, Refused)
    case Stored(s', receipt) =>
      if t < |s'.threads| then SetPc(s', t, if Authorizes(s'.mode, receipt, r) then Appending(receipt) else Refused)
      else s'
  }

  function DecisionEvent(r: Request, receipt: Receipt): Event {
    Event(EventKeyOf(r), r.decision, r, receipt)
  }

  function AppendDecision(s: State, t: nat, receipt: Receipt, a: Answer): State
    requires t < |s.threads|
  {
    var r := s.threads[t].req;
    var e := DecisionEvent(r, receipt);
    if !a.awaiting then SetPc(s, t, Refused)
    else if FindEvent(s.events, EventKeyOf(r)).Some? then SetPc(s, t, Failed)
    else SetPc(s.(events := s.events + [e]), t, if a.reported then Decided(e) else Failed)
  }

  predicate Finished(pc: Pc) {
    pc.Decided? || pc.Refused? || pc.Failed?
  }

  /** The decision names the operation's frozen bundle and one of its verifiers. */
  predicate MatchesFrozen(ops: map<Text, Frozen>, r: Request) {
    && r.target.operation in ops
    && ops[r.target.operation].bundle == r.target.bundle && r.verifier in ops[r.target.operation].verifiers
  }

  function Advance(ops: map<Text, Frozen>, s: State, t: nat, a: Answer): State
    requires t < |s.threads|
  {
    var r := s.threads[t].req;
    if Finished(s.threads[t].pc) then s
    else if !a.works then SetPc(s, t, Failed)
    else
      match s.threads[t].pc
      case Begin =>
        if !MatchesFrozen(ops, r) then SetPc(s, t, Refused)
        else
          (match FindEvent(s.events, EventKeyOf(r))
           case Some(e) => SetPc(s, t, if e.kind == r.decision && e.decisionRef == r then Decided(e) else Refused)
           case None => SetPc(s, t, ReadingMode))
      case ReadingMode =>
        var s' := Reconciled(s, a.now);
        if t < |s'.threads| then SetPc(s', t, ReadMode(s', r, a)) else s'
      case Consuming(generation, key) => Consume(s, t, generation, key, a)
      case Appending(receipt) => AppendDecision(s, t, receipt, a)
      case _ => s
  }

  datatype Label =
    | Arrive(r: Request)
    | Next(t: nat, a: Answer)
    | Set(q: SetRequest, now: int)
    | Crash

  /** The validation before anything is read. */
  predicate Complete(r: Request) {
    && r.key != [] && r.target.operation != [] && r.verifier != []
    && (r.decision == Approve <==> r.reason == [])
  }

  function Stopped(th: Thread): Thread {
    if Finished(th.pc) then th else th.(pc := Failed)
  }

  function Step(ops: map<Text, Frozen>, s: State, l: Label): State {
    match l
    case Arrive(r) => if Complete(r) then s.(threads := s.threads + [Thread(r, Begin)]) else s
    case Next(t, a) => if t < |s.threads| then Advance(ops, s, t, a) else s
    case Set(q, now) =>
      (match SetMode(s, q, now)
       case Stored(s', _) => s'
       case Conflict => s)
    case Crash => s.(threads := seq(|s.threads|, t requires 0 <= t < |s.threads| => Stopped(s.threads[t])))
  }

  function Exec(ops: map<Text, Frozen>, s: State, ls: seq<Label>): State
    decreases |ls|
  {
    if ls == [] then s else Step(ops, Exec(ops, s, ls[..|ls| - 1]), ls[|ls| - 1])
  }

  // -------------------------------------------------------------------- invariant

  /** The receipt is genuine: it records a step of the mode history. */
  ghost predicate Genuine(modes: seq<Mode>, r: Receipt) {
    && r.newGeneration == r.oldGeneration + 1 < |modes|
    && modes[r.oldGeneration] == r.oldMode && modes[r.newGeneration] == r.newMode
    && r.request.mode == r.newMode && r.request.expectedGeneration == r.oldGeneration
    && (Armed(r.newMode) ==> r.issuedAt < r.newMode.expiry && r.newMode.target.operation != [])
  }

  ghost predicate RegisterOk(s: State) {
    && |s.modes| == s.generation + 1 && s.modes[s.generation] == s.mode
    && (forall r :: r in s.issued ==> Genuine(s.modes, r))
    && (forall r, q :: r in s.issued && q in s.issued && r.newGeneration == q.newGeneration ==> r == q)
    && (s.receipt.Some? ==> s.receipt.value in s.issued && s.receipt.value.newGeneration == s.generation)
    && (forall g :: 0 <= g < |s.modes| && Armed(s.modes[g]) ==> s.modes[g].target.operation != [])
  }

  /** A decision and the receipt that carries it. */
  ghost predicate Carried(s: State, r: Request, receipt: Receipt) {
    && receipt in s.issued && receipt.newMode == ProposeOnly
    && (if r.decision == Approve then Consumed(receipt, r) else !Armed(receipt.oldMode))
  }

  ghost predicate EventOk(ops: map<Text, Frozen>, s: State, e: Event) {
    && e.id == EventKeyOf(e.decisionRef) && e.kind == e.decisionRef.decision
    && Carried(s, e.decisionRef, e.receipt) && MatchesFrozen(ops, e.decisionRef)
  }

  ghost predicate ThreadOk(ops: map<Text, Frozen>, s: State, th: Thread) {
    match th.pc
    case ReadingMode => MatchesFrozen(ops, th.req)
    case Consuming(_, _) => MatchesFrozen(ops, th.req)
    case Appending(receipt) => MatchesFrozen(ops, th.req) && Carried(s, th.req, receipt)
    case Decided(e) => e in s.events && e.decisionRef == th.req
    case _ => true
  }

  ghost predicate EventsOk(ops: map<Text, Frozen>, s: State) {
    && (forall j :: 0 <= j < |s.events| ==> EventOk(ops, s, s.events[j]))
    && (forall j, k :: 0 <= j < k < |s.events| ==> s.events[j].id != s.events[k].id)
  }

  ghost predicate ThreadsOk(ops: map<Text, Frozen>, s: State) {
    forall t :: 0 <= t < |s.threads| ==> ThreadOk(ops, s, s.threads[t])
  }

  ghost predicate Inv(ops: map<Text, Frozen>, s: State) {
    RegisterOk(s) && EventsOk(ops, s) && ThreadsOk(ops, s)
  }

  /** Receipts and events are never taken back. */
  ghost predicate Grows(s: State, s': State) {
    s.issued <= s'.issued && s.events <= s'.events
  }

  lemma GrowKeepsThread(ops: map<Text, Frozen>, s: State, s': State, th: Thread)
    requires ThreadOk(ops, s, th) && Grows(s, s')
    ensures ThreadOk(ops, s', th)
  {
  }

  lemma GrowKeepsEvents(ops: map<Text, Frozen>, s: State, s': State)
    requires EventsOk(ops, s) && Grows(s, s') && s'.events == s.events
    ensures EventsOk(ops, s')
  {
  }

  lemma ThreadMoves(ops: map<Text, Frozen>, s: State, s': State, t: nat)
    requires ThreadsOk(ops, s) && Grows(s, s') && t < |s.threads| == |s'.threads|
    requires s'.threads == s.threads[t := s'.threads[t]] && ThreadOk(ops, s', s'.threads[t])
    ensures ThreadsOk(ops, s')
  {
  }

  lemma PcMoves(ops: map<Text, Frozen>, s: State, t: nat, pc: Pc)
    requires Inv(ops, s) && t < |s.threads| && ThreadOk(ops, s, s.threads[t].(pc := pc))
    ensures Inv(ops, SetPc(s, t, pc)) && Grows(s, SetPc(s, t, pc))
  {
  }

  lemma RegisterGrows(s: State, q: SetRequest, now: int)
    requires RegisterOk(s) && SetMode(s, q, now).Stored?
    ensures var w := SetMode(s, q, now);
            RegisterOk(w.state) && w.receipt in w.state.issued && w.state.receipt == Some(w.receipt)
  {
  }

  /** A mode change, whoever makes it, keeps everything. */
  lemma SetKeepsInv(ops: map<Text, Frozen>, s: State, q: SetRequest, now: int)
    requires Inv(ops, s) && SetMode(s, q, now).Stored?
    ensures var w := SetMode(s, q, now);
            && Inv(ops, w.state) && Grows(s, w.state) && w.state.threads == s.threads && w.state.events == s.events
            && w.receipt in w.state.issued && w.state.receipt == Some(w.receipt)
  {
    hide RegisterOk, ThreadOk, EventsOk;
    var s' := SetMode(s, q, now).state;
    RegisterGrows(s, q, now);
    GrowKeepsEvents(ops, s, s');
    forall t | 0 <= t < |s'.threads| ensures ThreadOk(ops, s', s'.threads[t]) {
      GrowKeepsThread(ops, s, s', s.threads[t]);
    }
  }

  lemma ReconciledKeepsInv(ops: map<Text, Frozen>, s: State, now: int)
    requires Inv(ops, s)
    ensures var s' := Reconciled(s, now);
            Inv(ops, s') && Grows(s, s') && s'.threads == s.threads && s'.events == s.events
  {
    hide Inv, SetMode;
    var q := SetRequest(Off, s.generation, ModeExpiry(s.generation));
    if SetMode(s, q, now).Stored? {
      SetKeepsInv(ops, s, q, now);
    }
  }

  /** Whatever ReadMode lets through to the append is carried by the current receipt. */
  lemma ReadModeOk(ops: map<Text, Frozen>, s: State, r: Request, a: Answer)
    requires RegisterOk(s) && MatchesFrozen(ops, r)
    ensures ThreadOk(ops, s, Thread(r, ReadMode(s, r, a)))
  {
  }

  lemma ConsumeKeepsInv(ops: map<Text, Frozen>, s: State, t: nat, generation: nat, key: ModeKey, a: Answer)
    requires Inv(ops, s) && t < |s.threads| && s.threads[t].pc == Consuming(generation, key)
    ensures Inv(ops, Consume(s, t, generation, key, a)) && Grows(s, Consume(s, t, generation, key, a))
  {
    hide Inv, SetMode, RegisterOk, EventsOk;
    ThreadIsOk(ops, s, t);
    var r := s.threads[t].req;
    var q := SetRequest(ProposeOnly, generation, key);
    if SetMode(s, q, a.now).Stored? {
      SetKeepsInv(ops, s, q, a.now);
      var w := SetMode(s, q, a.now);
      PcMoves(ops, w.state, t, if Authorizes(w.state.mode, w.receipt, r) then Appending(w.receipt) else Refused);
    } else {
      PcMoves(ops, s, t, Refused);
    }
  }

  lemma ThreadIsOk(ops: map<Text, Frozen>, s: State, t: nat)
    requires Inv(ops, s) && t < |s.threads|
    ensures ThreadOk(ops, s, s.threads[t])
  {
  }

  lemma {:induction false} FindEventFinds(events: seq<Event>, id: EventKey)
    ensures match FindEvent(events, id)
            case Some(e) => e in events && e.id == id
            case None => forall e :: e in events ==> e.id != id
    decreases |events|
  {
    if events != [] {
      FindEventFinds(events[1..], id);
      assert events == [events[0]] + events[1..];
    }
  }

  lemma AppendKeepsEvents(ops: map<Text, Frozen>, s: State, s': State, e: Event)
    requires EventsOk(ops, s) && Grows(s, s') && s'.events == s.events + [e]
    requires EventOk(ops, s', e) && forall x :: x in s.events ==> x.id != e.id
    ensures EventsOk(ops, s')
  {
  }

  lemma AppendKeepsInv(ops: map<Text, Frozen>, s: State, t: nat, receipt: Receipt, a: Answer)
    requires Inv(ops, s) && t < |s.threads| && s.threads[t].pc == Appending(receipt)
    ensures Inv(ops, AppendDecision(s, t, receipt, a)) && Grows(s, AppendDecision(s, t, receipt, a))
  {
    hide Consumed, MatchesFrozen, Genuine, FindEvent, EventsOk;
    var r := s.threads[t].req;
    ThreadIsOk(ops, s, t);
    FindEventFinds(s.events, EventKeyOf(r));
    if !a.awaiting || FindEvent(s.events, EventKeyOf(r)).Some? {
      PcMoves(ops, s, t, if !a.awaiting then Refused else Failed);
    } else {
      var s' := AppendDecision(s, t, receipt, a);
      AppendKeepsEvents(ops, s, s', DecisionEvent(r, receipt));
      ThreadMoves(ops, s, s', t);
    }
  }

  lemma AdvanceKeepsInv(ops: map<Text, Frozen>, s: State, t: nat, a: Answer)
    requires Inv(ops, s) && t < |s.threads|
    ensures Inv(ops, Advance(ops, s, t, a)) && Grows(s, Advance(ops, s, t, a))
  {
    hide RegisterOk, EventsOk, ThreadsOk, Consume, AppendDecision, Reconciled, ReadMode, MatchesFrozen, FindEvent;
    ThreadIsOk(ops, s, t);
    var r := s.threads[t].req;
    if !Finished(s.threads[t].pc) {
      if !a.works {
        PcMoves(ops, s, t, Failed);
      } else {
        match s.threads[t].pc
        case Begin =>
          FindEventFinds(s.events, EventKeyOf(r));
          var found := FindEvent(s.events, EventKeyOf(r));
          PcMoves(ops, s, t,
                  if !MatchesFrozen(ops, r) then Refused
                  else if found.None? then ReadingMode
                  else if found.value.kind == r.decision && found.value.decisionRef == r then Decided(found.value)
                  else Refused);
        case ReadingMode =>
          ReconciledKeepsInv(ops, s, a.now);
          var s' := Reconciled(s, a.now);
          ReadModeOk(ops, s', r, a);
          PcMoves(ops, s', t, ReadMode(s', r, a));
        case Consuming(generation, key) => ConsumeKeepsInv(ops, s, t, generation, key, a);
        case Appending(receipt) => AppendKeepsInv(ops, s, t, receipt, a);
      }
    }
  }

  lemma ThreadsReset(ops: map<Text, Frozen>, s: State, s': State)
    requires Inv(ops, s) && s' == s.(threads := s'.threads)
    requires forall t :: 0 <= t < |s'.threads| ==>
               s'.threads[t].pc == Begin || s'.threads[t].pc == Failed || (t < |s.threads| && s'.threads[t] == s.threads[t])
    ensures Inv(ops, s') && Grows(s, s')
  {
  }

  lemma StepKeepsInv(ops: map<Text, Frozen>, s: State, l: Label)
    requires Inv(ops, s)
    ensures Inv(ops, Step(ops, s, l)) && Grows(s, Step(ops, s, l))
  {
    hide Inv, Advance, SetMode;
    match l
    case Next(t, a) =>
      if t < |s.threads| {
        AdvanceKeepsInv(ops, s, t, a);
      }
    case Set(q, now) =>
      if SetMode(s, q, now).Stored? {
        SetKeepsInv(ops, s, q, now);
      }
    case Arrive(r) => ThreadsReset(ops, s, Step(ops, s, l));
    case Crash => ThreadsReset(ops, s, Step(ops, s, l));
  }

  lemma {:induction false} RunKeepsInv(ops: map<Text, Frozen>, ls: seq<Label>)
    ensures Inv(ops, Exec(ops, Init(), ls))
    decreases |ls|
  {
    hide Step;
    if ls != [] {
      RunKeepsInv(ops, ls[..|ls| - 1]);
      StepKeepsInv(ops, Exec(ops, Init(), ls[..|ls| - 1]), ls[|ls| - 1]);
    }
  }

  // --------------------------------------------------------------------- theorems

  /** The receipt spent an armed mode, in time, on this approval of exactly the
      target the mode was armed for. */
  predicate SpentOn(receipt: Receipt, r: Request) {
    var spent := Binding(Approve, r.key, r.target, r.verifier, []);
    && r.decision == Approve && r.reason == []
    && receipt.newMode == ProposeOnly && receipt.request.mode == ProposeOnly
    && match receipt.oldMode
       case AcceptOnce(target, expiry) =>
         target == r.target && receipt.issuedAt <= expiry && receipt.request.key == AcceptOnceConsumed(r.target.operation, spent)
       case Consensus(target, expiry, _, _) =>
         target == r.target && receipt.issuedAt <= expiry && receipt.request.key == ConsensusConsumed(r.target.operation, spent)
       case _ => false
  }

  /** Every approval event carries a genuine receipt that consumed an armed mode
      inside its window, bound to exactly this operation, bundle, heads, pending
      transition, commitments and decision. */
  lemma ApprovalIsAuthorized(ops: map<Text, Frozen>, ls: seq<Label>, j: nat)
    requires j < |Exec(ops, Init(), ls).events| && Exec(ops, Init(), ls).events[j].kind == Approve
    ensures var s := Exec(ops, Init(), ls); var e := s.events[j]; var g := e.receipt.oldGeneration;
            && e.receipt in s.issued && g + 1 < |s.modes|
            && Armed(s.modes[g]) && s.modes[g].target == e.decisionRef.target
            && s.modes[g + 1] == ProposeOnly && e.receipt.issuedAt <= s.modes[g].expiry
            && SpentOn(e.receipt, e.decisionRef)
  {
    hide Exec, ThreadsOk, MatchesFrozen;
    RunKeepsInv(ops, ls);
    var s := Exec(ops, Init(), ls);
    assert EventOk(ops, s, s.events[j]);
  }

  /** One armed authorization yields at most one approval: the generation it was
      armed at determines the receipt, the receipt its binding, the binding the
      event's idempotency key. */
  lemma AuthorizationIsSingleUse(ops: map<Text, Frozen>, ls: seq<Label>, j: nat, k: nat)
    requires var s := Exec(ops, Init(), ls);
             && j < |s.events| && k < |s.events| && s.events[j].kind == Approve && s.events[k].kind == Approve
             && s.events[j].receipt.oldGeneration == s.events[k].receipt.oldGeneration
    ensures j == k
  {
    hide Exec, ThreadsOk, MatchesFrozen;
    RunKeepsInv(ops, ls);
    var s := Exec(ops, Init(), ls);
    assert EventOk(ops, s, s.events[j]) && EventOk(ops, s, s.events[k]);
    assert s.events[j].receipt == s.events[k].receipt;
    assert s.events[j].id == s.events[k].id;
  }

  /** A rejection never uses up an authorization. */
  lemma RejectionConsumesNothing(ops: map<Text, Frozen>, ls: seq<Label>, j: nat)
    requires j < |Exec(ops, Init(), ls).events| && Exec(ops, Init(), ls).events[j].kind == Reject
    ensures var s := Exec(ops, Init(), ls); var e := s.events[j];
            e.receipt in s.issued && e.receipt.oldGeneration < |s.modes| && !Armed(s.modes[e.receipt.oldGeneration])
  {
    hide Exec, ThreadsOk, MatchesFrozen;
    RunKeepsInv(ops, ls);
    var s := Exec(ops, Init(), ls);
    assert EventOk(ops, s, s.events[j]);
  }

  /** A consumed receipt answers for one decision only. */
  lemma ReceiptFixesDecision(receipt: Receipt, r: Request, q: Request)
    requires Consumed(receipt, r) && Consumed(receipt, q)
    ensures r.decision == q.decision && r.key == q.key && r.target == q.target && r.verifier == q.verifier && r.reason == q.reason
  {
  }

  /** Every event, approval or rejection, names the bundle its operation is frozen
      with and one of that operation's verifiers, was complete, and stands under
      its own operation and key. */
  lemma EventsNameFrozen(ops: map<Text, Frozen>, ls: seq<Label>, j: nat)
    requires j < |Exec(ops, Init(), ls).events|
    ensures var e := Exec(ops, Init(), ls).events[j]; var r := e.decisionRef;
            && r.target.operation in ops && r.target.bundle == ops[r.target.operation].bundle
            && r.verifier in ops[r.target.operation].verifiers
            && e.kind == r.decision && e.id == EventKey(r.target.operation, r.key)
            && r.target.operation != [] && r.key != [] && r.verifier != [] && (r.decision == Approve <==> r.reason == [])
  {
    hide Exec, ThreadsOk, Consumed;
    RunKeepsInv(ops, ls);
    RunKeepsComplete(ops, ls);
    var s := Exec(ops, Init(), ls);
    assert EventOk(ops, s, s.events[j]) && Complete(s.events[j].decisionRef);
  }

  /** However the run goes, a request that names another bundle or a verifier the
      operation is not frozen with gets neither a mode consumed nor an event. */
  lemma ForeignIsNeverServed(ops: map<Text, Frozen>, ls: seq<Label>, t: nat)
    requires t < |Exec(ops, Init(), ls).threads|
    requires var r := Exec(ops, Init(), ls).threads[t].req;
             || r.target.operation !in ops || r.target.bundle != ops[r.target.operation].bundle
             || r.verifier !in ops[r.target.operation].verifiers
    ensures var s := Exec(ops, Init(), ls);
            && s.threads[t].pc in {Begin, Refused, Failed}
            && forall e :: e in s.events ==> e.decisionRef != s.threads[t].req
  {
    hide Exec, RegisterOk, EventsOk;
    RunKeepsInv(ops, ls);
    var s := Exec(ops, Init(), ls);
    ThreadIsOk(ops, s, t);
    forall e | e in s.events ensures e.decisionRef != s.threads[t].req {
      var j: nat :| j < |s.events| && s.events[j] == e;
      EventsNameFrozen(ops, ls, j);
    }
    if s.threads[t].pc.Decided? {
      FrozenDecided(ops, s, t);
    }
  }

  lemma FrozenDecided(ops: map<Text, Frozen>, s: State, t: nat)
    requires Inv(ops, s) && t < |s.threads| && s.threads[t].pc.Decided?
    ensures MatchesFrozen(ops, s.threads[t].req)
  {
    assert ThreadOk(ops, s, s.threads[t]);
    var j: nat :| j < |s.events| && s.events[j] == s.threads[t].pc.event;
    assert EventOk(ops, s, s.events[j]);
  }

  /** Served undisturbed, such a request is refused: no event, the register as it was. */
  lemma ForeignIsRefused(ops: map<Text, Frozen>, ls: seq<Label>, r: Request, a: Answer)
    requires Complete(r) && a.works
    requires || r.target.operation !in ops || r.target.bundle != ops[r.target.operation].bundle
             || r.verifier !in ops[r.target.operation].verifiers
    ensures var s := Exec(ops, Init(), ls); var t := |s.threads|; var s' := Solo(ops, Arrived(s, r), t, a, 4);
            && t < |s'.threads| && s'.threads[t].pc == Refused
            && s'.events == s.events && s'.mode == s.mode && s'.generation == s.generation
            && s'.receipt == s.receipt && s'.issued == s.issued && s'.modes == s.modes
  {
    hide Exec, Solo;
    var s := Exec(ops, Init(), ls);
    var s0 := Arrived(s, r);
    SoloUnfold(ops, s0, |s.threads|, a, 4);
    FinishedStays(ops, Advance(ops, s0, |s.threads|, a), |s.threads|, a, 3);
  }

  /** A mode was in force only if it was set before its expiry, for a named operation. */
  lemma ArmedInTime(ops: map<Text, Frozen>, ls: seq<Label>, receipt: Receipt)
    requires receipt in Exec(ops, Init(), ls).issued && Armed(receipt.newMode)
    ensures receipt.issuedAt < receipt.newMode.expiry && receipt.newMode.target.operation != []
  {
    hide Exec, ThreadsOk, EventsOk;
    RunKeepsInv(ops, ls);
    assert Genuine(Exec(ops, Init(), ls).modes, receipt);
  }

  /** A mode change sent again returns its receipt and changes nothing; another one
      under its key, or one that expects an older generation, conflicts. */
  lemma SetOnce(s: State, q: SetRequest, now: int, p: SetRequest, later: int)
    requires SetMode(s, q, now).Stored?
    ensures var w := SetMode(s, q, now);
            && SetMode(w.state, q, later) == w
            && (p.key == q.key && p != q ==> SetMode(w.state, p, later) == Conflict)
            && (p.key != q.key && p.expectedGeneration != w.state.generation ==> SetMode(w.state, p, later) == Conflict)
  {
  }

  /** Only complete requests are ever served. */
  ghost predicate AllComplete(s: State) {
    && (forall t :: 0 <= t < |s.threads| ==> Complete(s.threads[t].req))
    && (forall j :: 0 <= j < |s.events| ==> Complete(s.events[j].decisionRef))
  }

  lemma AdvanceKeepsComplete(ops: map<Text, Frozen>, s: State, t: nat, a: Answer)
    requires AllComplete(s) && t < |s.threads|
    ensures AllComplete(Advance(ops, s, t, a))
  {
    hide Complete, ReadMode, FindEvent, MatchesFrozen, Authorizes;
  }

  lemma {:induction false} RunKeepsComplete(ops: map<Text, Frozen>, ls: seq<Label>)
    ensures AllComplete(Exec(ops, Init(), ls))
    decreases |ls|
  {
    hide Advance, Complete;
    if ls != [] {
      RunKeepsComplete(ops, ls[..|ls| - 1]);
      var s := Exec(ops, Init(), ls[..|ls| - 1]);
      var l := ls[|ls| - 1];
      if l.Next? && l.t < |s.threads| {
        AdvanceKeepsComplete(ops, s, l.t, l.a);
      }
    }
  }

  // ------------------------------------------------------------- crash and retry

  /** Serving one request to its end. */
  function Solo(ops: map<Text, Frozen>, s: State, t: nat, a: Answer, n: nat): State
    requires t < |s.threads|
    decreases n
  {
    if n == 0 then s
    else
      var s' := Advance(ops, s, t, a);
      if t < |s'.threads| then Solo(ops, s', t, a, n - 1) else s'
  }

  function Arrived(s: State, r: Request): State {
    s.(threads := s.threads + [Thread(r, Begin)])
  }

  lemma SoloUnfold(ops: map<Text, Frozen>, s: State, t: nat, a: Answer, n: nat)
    requires t < |s.threads| && n > 0 && t < |Advance(ops, s, t, a).threads|
    ensures Solo(ops, s, t, a, n) == Solo(ops, Advance(ops, s, t, a), t, a, n - 1)
  {
  }

  lemma {:induction false} FinishedStays(ops: map<Text, Frozen>, s: State, t: nat, a: Answer, n: nat)
    requires t < |s.threads| && Finished(s.threads[t].pc)
    ensures Solo(ops, s, t, a, n) == s
    decreases n
  {
    if n > 0 {
      FinishedStays(ops, s, t, a, n - 1);
    }
  }

  lemma RequestsStay(ops: map<Text, Frozen>, s: State, t: nat, a: Answer)
    requires t < |s.threads|
    ensures |Advance(ops, s, t, a).threads| == |s.threads|
  {
    hide ReadMode, FindEvent, MatchesFrozen, Authorizes, ValidMode;
  }

  function Nexts(t: nat, a: Answer, n: nat): seq<Label> {
    if n == 0 then [] else Nexts(t, a, n - 1) + [Next(t, a)]
  }

  lemma {:induction false} SoloKeepsLength(ops: map<Text, Frozen>, s: State, t: nat, a: Answer, n: nat)
    requires t < |s.threads|
    ensures |Solo(ops, s, t, a, n).threads| == |s.threads|
    decreases n
  {
    hide Advance;
    if n > 0 {
      RequestsStay(ops, s, t, a);
      SoloKeepsLength(ops, Advance(ops, s, t, a), t, a, n - 1);
    }
  }

  lemma {:induction false} SoloSnoc(ops: map<Text, Frozen>, s: State, t: nat, a: Answer, n: nat)
    requires t < |s.threads| && t < |Solo(ops, s, t, a, n).threads|
    ensures Solo(ops, s, t, a, n + 1) == Advance(ops, Solo(ops, s, t, a, n), t, a)
    decreases n
  {
    hide Advance;
    RequestsStay(ops, s, t, a);
    SoloUnfold(ops, s, t, a, n + 1);
    if n > 0 {
      SoloUnfold(ops, s, t, a, n);
      SoloSnoc(ops, Advance(ops, s, t, a), t, a, n - 1);
    }
  }

  /** Serving a request to its end is a run of the machine. */
  lemma {:induction false} ServingIsRun(ops: map<Text, Frozen>, ls: seq<Label>, t: nat, a: Answer, n: nat)
    requires t < |Exec(ops, Init(), ls).threads|
    ensures Exec(ops, Init(), ls + Nexts(t, a, n)) == Solo(ops, Exec(ops, Init(), ls), t, a, n)
    decreases n
  {
    hide Advance;
    if n == 0 {
      assert ls + Nexts(t, a, n) == ls;
    } else {
      ServingIsRun(ops, ls, t, a, n - 1);
      SoloKeepsLength(ops, Exec(ops, Init(), ls), t, a, n - 1);
      SoloSnoc(ops, Exec(ops, Init(), ls), t, a, n - 1);
      var ms := ls + Nexts(t, a, n);
      assert ms[..|ms| - 1] == ls + Nexts(t, a, n - 1) && ms[|ms| - 1] == Next(t, a);
    }
  }

  /** A crash ends every unanswered request and loses nothing that is stored. */
  lemma CrashEnds(ops: map<Text, Frozen>, s: State, t: nat)
    requires t < |s.threads|
    ensures var s' := Step(ops, s, Crash); var pc := s.threads[t].pc;
            && s' == s.(threads := s'.threads) && |s'.threads| == |s.threads| && s'.threads[t].req == s.threads[t].req
            && s'.threads[t].pc == if pc.Decided? || pc.Refused? then pc else Failed
  {
  }

  lemma ArrivesFirst(ops: map<Text, Frozen>, ls: seq<Label>, r: Request)
    requires r.key != [] && r.target.operation != [] && r.verifier != [] && (r.decision == Approve <==> r.reason == [])
    ensures Exec(ops, Init(), ls + [Arrive(r)]) == Arrived(Exec(ops, Init(), ls), r)
  {
    assert (ls + [Arrive(r)])[..|ls|] == ls;
  }

  /** After a crash between consumption and append the same approval, retried,
      completes with the receipt already consumed and nothing newly armed. This is
      one case of DecisionConverges, with the event it adds spelled out. */
  lemma RetryAfterConsumption(ops: map<Text, Frozen>, s: State, r: Request, a: Answer)
    requires a.works && a.awaiting && a.reported && MatchesFrozen(ops, r)
    requires s.mode == ProposeOnly && s.receipt.Some? && SpentOn(s.receipt.value, r)
    requires FindEvent(s.events, EventKeyOf(r)).None?
    ensures var t := |s.threads|; var s' := Solo(ops, Arrived(s, r), t, a, 3);
            && t < |s'.threads| && s'.threads[t].pc == Decided(DecisionEvent(r, s.receipt.value))
            && s'.events == s.events + [DecisionEvent(r, s.receipt.value)]
            && s'.mode == s.mode && s'.generation == s.generation && s'.issued == s.issued
  {
  }

  /** From an armed mode that names the request, one undisturbed approval consumes
      it, appends its event, and leaves propose-only behind; a mode armed by
      consensus also needs the bundle it was armed with. The other case of
      DecisionConverges that adds an event. */
  lemma ArmedApprovalCompletes(ops: map<Text, Frozen>, s: State, r: Request, a: Answer)
    requires a.works && a.awaiting && a.reported && MatchesFrozen(ops, r) && r.reason == []
    requires FindEvent(s.events, EventKeyOf(r)).None? && Spends(s, r, a)
    ensures var t := |s.threads|; var s' := Solo(ops, Arrived(s, r), t, a, 4);
            && t < |s'.threads| && s'.threads[t].pc.Decided?
            && s'.threads[t].pc.event.decisionRef == r && s'.events == s.events + [s'.threads[t].pc.event]
            && s'.mode == ProposeOnly && s'.generation == s.generation + 1
  {
    hide Solo, FindEvent, MatchesFrozen, Spends;
    var t := |s.threads|;
    var s0 := Arrived(s, r);
    var s1 := Advance(ops, s0, t, a);
    SoloUnfold(ops, s0, t, a, 4);
    SpendsIgnoresThreads(s, s1, r, a);
    SoloReading(ops, s1, t, a, 3);
  }

  // --------------------------------------------------- what an undisturbed request does

  /** The current mode is armed for exactly this approval and can be consumed by it. */
  predicate Spends(s: State, r: Request, a: Answer) {
    && r.decision == Approve && Armed(s.mode) && a.now < s.mode.expiry && s.mode.target == r.target
    && s.receipt.Some? && s.receipt.value.request.key != ConsumptionKey(s.mode, r)
    && (s.mode.Consensus? ==> r.consensus.Some? && a.consensusOk)
  }

  /** Propose-only, entered by spending an armed mode on this very approval or, for
      a rejection, from a mode that was not armed. */
  predicate CarriesAlready(s: State, r: Request) {
    && s.mode == ProposeOnly && s.receipt.Some?
    && if r.decision == Approve then SpentOn(s.receipt.value, r) else !Armed(s.receipt.value.oldMode)
  }

  lemma SpendsIgnoresThreads(s: State, s': State, r: Request, a: Answer)
    requires s'.mode == s.mode && s'.receipt == s.receipt
    ensures Spends(s', r, a) == Spends(s, r, a)
  {
  }

  predicate SameRegister(s: State, s': State) {
    s'.mode == s.mode && s'.generation == s.generation && s'.receipt == s.receipt && s'.issued == s.issued && s'.modes == s.modes
  }

  /** One event was added, for this request, and decided it unless the report of
      the append was lost. */
  predicate DecidedNow(s: State, s': State, t: nat, r: Request, reported: bool) {
    && t < |s'.threads| && |s'.events| == |s.events| + 1 && s'.events[..|s.events|] == s.events
    && s'.events[|s.events|].decisionRef == r
    && s'.threads[t].pc == if reported then Decided(s'.events[|s.events|]) else Failed
  }

  predicate RefusedNow(s: State, s': State, t: nat) {
    t < |s'.threads| && s'.threads[t].pc == Refused && s'.events == s.events
  }

  lemma SoloAppending(ops: map<Text, Frozen>, s: State, t: nat, a: Answer, n: nat)
    requires t < |s.threads| && s.threads[t].pc.Appending? && a.works && n >= 1
    requires FindEvent(s.events, EventKeyOf(s.threads[t].req)).None?
    ensures var s' := Solo(ops, s, t, a, n);
            && (a.awaiting ==> DecidedNow(s, s', t, s.threads[t].req, a.reported)) && (!a.awaiting ==> RefusedNow(s, s', t))
            && SameRegister(s, s')
  {
    hide Solo, FindEvent;
    SoloUnfold(ops, s, t, a, n);
    FinishedStays(ops, Advance(ops, s, t, a), t, a, n - 1);
  }

  lemma SoloConsuming(ops: map<Text, Frozen>, s: State, t: nat, a: Answer, n: nat)
    requires t < |s.threads| && a.works && n >= 2 && s.threads[t].req.reason == []
    requires s.threads[t].pc == Consuming(s.generation, ConsumptionKey(s.mode, s.threads[t].req))
    requires FindEvent(s.events, EventKeyOf(s.threads[t].req)).None? && Spends(s, s.threads[t].req, a)
    ensures var s' := Solo(ops, s, t, a, n);
            && (a.awaiting ==> DecidedNow(s, s', t, s.threads[t].req, a.reported)) && (!a.awaiting ==> RefusedNow(s, s', t))
            && s'.mode == ProposeOnly && s'.generation == s.generation + 1
  {
    hide Solo, FindEvent;
    SoloUnfold(ops, s, t, a, n);
    var s1 := Advance(ops, s, t, a);
    assert s1.threads[t].pc.Appending?;
    SoloAppending(ops, s1, t, a, n - 1);
  }

  /** A key that is already used up by the arming itself cannot consume the mode. */
  lemma SoloConflicts(ops: map<Text, Frozen>, s: State, t: nat, a: Answer, n: nat)
    requires t < |s.threads| && a.works && n >= 1 && RegisterOk(s) && Armed(s.mode) && s.receipt.Some?
    requires s.threads[t].pc == Consuming(s.generation, s.receipt.value.request.key)
    ensures RefusedNow(s, Solo(ops, s, t, a, n), t) && SameRegister(s, Solo(ops, s, t, a, n))
  {
    hide Solo;
    SoloUnfold(ops, s, t, a, n);
    assert Genuine(s.modes, s.receipt.value);
    FinishedStays(ops, Advance(ops, s, t, a), t, a, n - 1);
  }

  lemma LapsedIsRefused(s: State, r: Request, a: Answer)
    requires Lapsed(s.mode, a.now)
    ensures ReadMode(Reconciled(s, a.now), r, a) == Refused
  {
  }

  lemma ReconcileKeeps(s: State, now: int)
    ensures Reconciled(s, now).events == s.events && Reconciled(s, now).threads == s.threads
  {
  }

  lemma ReadModeGoes(s: State, r: Request, a: Answer)
    requires RegisterOk(s) && !Lapsed(s.mode, a.now)
    ensures Reconciled(s, a.now) == s
    ensures CarriesAlready(s, r) ==> ReadMode(s, r, a) == Appending(s.receipt.value)
    ensures Spends(s, r, a) ==> ReadMode(s, r, a) == Consuming(s.generation, ConsumptionKey(s.mode, r))
    ensures !CarriesAlready(s, r) && !Spends(s, r, a) ==>
              || ReadMode(s, r, a) == Refused
              || (Armed(s.mode) && s.receipt.Some? && ReadMode(s, r, a) == Consuming(s.generation, s.receipt.value.request.key))
  {
    if s.receipt.Some? {
      assert Genuine(s.modes, s.receipt.value);
    }
  }

  /** From reading the mode to the answer. */
  lemma SoloReading(ops: map<Text, Frozen>, s: State, t: nat, a: Answer, n: nat)
    requires t < |s.threads| && s.threads[t].pc == ReadingMode && a.works && n >= 3
    requires FindEvent(s.events, EventKeyOf(s.threads[t].req)).None? && s.threads[t].req.reason == []
    requires Spends(s, s.threads[t].req, a)
    ensures var s' := Solo(ops, s, t, a, n);
            && (a.awaiting ==> DecidedNow(s, s', t, s.threads[t].req, a.reported)) && (!a.awaiting ==> RefusedNow(s, s', t))
            && s'.mode == ProposeOnly && s'.generation == s.generation + 1
  {
    hide Solo, FindEvent;
    SoloUnfold(ops, s, t, a, n);
    var s1 := Advance(ops, s, t, a);
    assert s1.threads[t].pc == Consuming(s.generation, ConsumptionKey(s.mode, s.threads[t].req));
    SoloConsuming(ops, s1, t, a, n - 1);
  }

  lemma SoloReadingElse(ops: map<Text, Frozen>, s: State, t: nat, a: Answer, n: nat)
    requires t < |s.threads| && s.threads[t].pc == ReadingMode && a.works && n >= 3 && RegisterOk(s)
    requires FindEvent(s.events, EventKeyOf(s.threads[t].req)).None? && !Spends(s, s.threads[t].req, a)
    ensures var s' := Solo(ops, s, t, a, n);
            && (CarriesAlready(s, s.threads[t].req) && a.awaiting ==> DecidedNow(s, s', t, s.threads[t].req, a.reported))
            && (!CarriesAlready(s, s.threads[t].req) || !a.awaiting ==> RefusedNow(s, s', t))
            && (!Lapsed(s.mode, a.now) ==> SameRegister(s, s'))
  {
    hide Solo, FindEvent, ReadMode, Reconciled, Spends, RegisterOk, Authorizes;
    var r := s.threads[t].req;
    ReconcileKeeps(s, a.now);
    SoloUnfold(ops, s, t, a, n);
    var s1 := Advance(ops, s, t, a);
    if Lapsed(s.mode, a.now) {
      LapsedIsRefused(s, r, a);
      FinishedStays(ops, s1, t, a, n - 1);
    } else {
      ReadModeGoes(s, r, a);
      SameRegisterOk(s, s1);
      if CarriesAlready(s, r) {
        SoloAppending(ops, s1, t, a, n - 1);
      } else if ReadMode(s, r, a) == Refused {
        FinishedStays(ops, s1, t, a, n - 1);
      } else {
        SoloConflicts(ops, s1, t, a, n - 1);
      }
    }
  }

  lemma SameRegisterOk(s: State, s': State)
    requires RegisterOk(s) && SameRegister(s, s')
    ensures RegisterOk(s')
  {
  }

  /** The request is answered by an existing event or by a present authorization. */
  predicate Grants(ops: map<Text, Frozen>, s: State, r: Request, a: Answer) {
    && MatchesFrozen(ops, r)
    && match FindEvent(s.events, EventKeyOf(r))
       case Some(e) => e.kind == r.decision && e.decisionRef == r
       case None => a.awaiting && (CarriesAlready(s, r) || Spends(s, r, a))
  }

  /** Decisions converge. From every reachable state a complete request that meets
      no failure is decided exactly if its event exists and agrees with it, or the
      operation awaits it and its receipt is consumed already or the mode is armed
      for it; it is then decided by that event or by exactly one new one, which
      stands even if its report is lost and the request fails. Otherwise
      it is refused and no event is added. The mode register changes only for an
      armed approval, which is spent even if the operation then does not await it,
      and for a lapsed mode that is turned off. */
  lemma DecisionConverges(ops: map<Text, Frozen>, ls: seq<Label>, r: Request, a: Answer)
    requires r.key != [] && r.target.operation != [] && r.verifier != [] && (r.decision == Approve <==> r.reason == [])
    requires a.works
    ensures var s := Exec(ops, Init(), ls); var t := |s.threads|; var s' := Solo(ops, Arrived(s, r), t, a, 4);
            var found := FindEvent(s.events, EventKeyOf(r));
            && Exec(ops, Init(), ls + [Arrive(r)] + Nexts(t, a, 4)) == s' && t < |s'.threads|
            && (Grants(ops, s, r, a) ==>
                  if found.Some? then s'.threads[t].pc == Decided(found.value) && s'.events == s.events
                  else DecidedNow(s, s', t, r, a.reported))
            && (!Grants(ops, s, r, a) ==> RefusedNow(s, s', t))
            && (MatchesFrozen(ops, r) && found.None? && Spends(s, r, a) ==>
                  s'.mode == ProposeOnly && s'.generation == s.generation + 1)
            && (!(MatchesFrozen(ops, r) && found.None? && (Spends(s, r, a) || Lapsed(s.mode, a.now))) ==> SameRegister(s, s'))
  {
    hide Exec, Solo, FindEvent, MatchesFrozen, Spends, CarriesAlready, RegisterOk, EventsOk, ThreadsOk;
    RunKeepsInv(ops, ls);
    ArrivesFirst(ops, ls, r);
    ServingIsRun(ops, ls + [Arrive(r)], |Exec(ops, Init(), ls).threads|, a, 4);
    var s := Exec(ops, Init(), ls);
    var t := |s.threads|;
    var s0 := Arrived(s, r);
    SoloUnfold(ops, s0, t, a, 4);
    var s1 := Advance(ops, s0, t, a);
    if !MatchesFrozen(ops, r) || FindEvent(s.events, EventKeyOf(r)).Some? {
      FinishedStays(ops, s1, t, a, 3);
    } else {
      SpendsIgnoresThreads(s, s1, r, a);
      CarriesIgnoresThreads(s, s1, r);
      SameRegisterOk(s, s1);
      if Spends(s, r, a) {
        SpendsIsApproval(s, r, a);
        SoloReading(ops, s1, t, a, 3);
      } else {
        SoloReadingElse(ops, s1, t, a, 3);
      }
    }
  }

  /** An undisturbed request that finds the mode armed past its expiry is refused
      and turns it off, once; if the very key of that change was used to arm it,
      the mode stays as it is. */
  lemma LapsedModeTurnsOff(ops: map<Text, Frozen>, ls: seq<Label>, r: Request, a: Answer)
    requires r.target.operation in ops && r.target.bundle == ops[r.target.operation].bundle
    requires r.verifier in ops[r.target.operation].verifiers && a.works
    requires var s := Exec(ops, Init(), ls);
             FindEvent(s.events, EventKeyOf(r)).None? && Armed(s.mode) && a.now >= s.mode.expiry
    ensures var s := Exec(ops, Init(), ls); var t := |s.threads|; var s' := Solo(ops, Arrived(s, r), t, a, 4);
            && RefusedNow(s, s', t)
            && if s.receipt.Some? && s.receipt.value.request.key == ModeExpiry(s.generation) then SameRegister(s, s')
               else s'.mode == Off && s'.generation == s.generation + 1 && s'.modes == s.modes + [Off]
  {
    hide Exec, Solo, FindEvent, ReadMode, RegisterOk, EventsOk, ThreadsOk;
    var s := Exec(ops, Init(), ls);
    var t := |s.threads|;
    var s0 := Arrived(s, r);
    RunKeepsInv(ops, ls);
    SoloUnfold(ops, s0, t, a, 4);
    var s1 := Advance(ops, s0, t, a);
    SameRegisterOk(s, s1);
    LapsedIsRefused(s1, r, a);
    ReconcileKeeps(s1, a.now);
    TurnedOff(s1, a.now);
    SoloUnfold(ops, s1, t, a, 3);
    FinishedStays(ops, Advance(ops, s1, t, a), t, a, 2);
  }

  lemma TurnedOff(s: State, now: int)
    requires RegisterOk(s) && Lapsed(s.mode, now)
    ensures var s' := Reconciled(s, now);
            if s.receipt.Some? && s.receipt.value.request.key == ModeExpiry(s.generation) then SameRegister(s, s')
            else s'.mode == Off && s'.generation == s.generation + 1 && s'.modes == s.modes + [Off]
  {
    if s.receipt.Some? {
      assert Genuine(s.modes, s.receipt.value);
    }
  }

  /** When a call fails, the request ends there and nothing has changed. */
  lemma FailingCallEnds(ops: map<Text, Frozen>, ls: seq<Label>, r: Request, a: Answer)
    requires !a.works
    ensures var s := Exec(ops, Init(), ls); var t := |s.threads|; var s' := Solo(ops, Arrived(s, r), t, a, 4);
            && t < |s'.threads| && s'.threads[t].pc == Failed && s'.events == s.events && SameRegister(s, s')
  {
    hide Exec, Solo;
    var s := Exec(ops, Init(), ls);
    SoloUnfold(ops, Arrived(s, r), |s.threads|, a, 4);
    FinishedStays(ops, Advance(ops, Arrived(s, r), |s.threads|, a), |s.threads|, a, 3);
  }

  lemma SpendsIsApproval(s: State, r: Request, a: Answer)
    requires Spends(s, r, a)
    ensures r.decision == Approve
  {
  }

  lemma CarriesIgnoresThreads(s: State, s': State, r: Request)
    requires s'.mode == s.mode && s'.receipt == s.receipt
    ensures CarriesAlready(s', r) == CarriesAlready(s, r)
  {
  }
}
