/** The restartable start of a self-development operation: concurrent requests,
    crashes at any point, and retries. */
module SelfDevStart {
  import opened Updates
  import opened Wrappers

  // ------------------------------------------------------------------ identities

  /** Digests are symbolic: equal digests mean equal preimages. The two joined
      preimages are kept apart into their parts, which IdentityJoin and
      RequestJoin justify for computer ids without a NUL byte. */
  datatype Digest =
    | OfBytes(bytes: Text)
    | OfIdentity(computer: Text, key: Text)
    | OfRequest(computer: Text, key: Text, prompt: Digest)
    | FirstHalf(of: Digest)
    | SecondHalf(of: Digest)

  datatype Halves = Halves(before: Text, after: Text)

  /** What stands before and after the first NUL. */
  function Cut(s: Text): Halves
    decreases |s|
  {
    if s == [] then Halves([], [])
    else if s[0] == 0 then Halves([], s[1..])
    else Halves([s[0]] + Cut(s[1..]).before, Cut(s[1..]).after)
  }

  lemma {:induction false} CutJoined(c: Text, k: Text)
    requires 0 !in c
    ensures Cut(c + [0] + k) == Halves(c, k)
    decreases |c|
  {
    var s := c + [0] + k;
    if c == [] {
      assert s[1..] == k;
    } else {
      assert s[0] == c[0] && c[0] in c && s[1..] == c[1..] + [0] + k;
      assert forall x :: x in c[1..] ==> x in c;
      CutJoined(c[1..], k);
      assert c == [c[0]] + c[1..];
    }
  }

  /** computer NUL key determines both parts, for a NUL-free computer id. */
  lemma IdentityJoin(c: Text, k: Text, c': Text, k': Text)
    requires 0 !in c && 0 !in c' && c + [0] + k == c' + [0] + k'
    ensures c == c' && k == k'
  {
    CutJoined(c, k);
    CutJoined(c', k');
  }

  /** computer NUL key NUL hex determines all three parts when the hex digests
      have one length, whatever bytes the key contains. */
  lemma RequestJoin(c: Text, k: Text, h: Text, c': Text, k': Text, h': Text)
    requires 0 !in c && 0 !in c' && |h| == |h'|
    requires c + [0] + k + [0] + h == c' + [0] + k' + [0] + h'
    ensures c == c' && k == k' && h == h'
  {
    var s := c + [0] + k + [0] + h;
    var n := |s| - |h|;
    assert h == s[n..] && h' == s[n..];
    assert c + [0] + k == s[..n - 1] && c' + [0] + k' == s[..n - 1];
    IdentityJoin(c, k, c', k');
  }

  // ----------------------------------------------------------------------- state

  datatype Request = Request(computer: Text, owner: Text, key: Text, prompt: Text)

  datatype Slot = Slot(computer: Text, key: Text)

  /** A TrajectoryStarted event; `identity` is its idempotency key. */
  datatype Event = Event(
    computer: Text,
    identity: Digest,
    trajectory: Digest,
    decision: Digest,
    owner: Text,
    artifact: Text,
    previousHead: Text)

  datatype Operation = Operation(
    slot: Slot,
    id: Digest,
    trajectory: Digest,
    commitment: Digest,
    promptRef: Text,
    baseHead: Text)

  datatype Pc =
    | Begin
    | ReadingEvent
    | CheckingMode
    | Binding
    | Appending
    | Rereading
    | Rebinding(event: Event)
    | Starting(event: Event)
    | Ensuring(op: Operation)
    | Done(op: Operation)
    | Refused
    | Failed

  datatype Thread = Thread(req: Request, pc: Pc)

  /** The tables survive; threads are requests being served. */
  datatype State = State(
    intents: map<Slot, Digest>,
    events: seq<Event>,
    ops: map<Slot, Operation>,
    threads: seq<Thread>)

  function Init(): State {
    State(map[], [], map[], [])
  }

  function SlotOf(r: Request): Slot {
    Slot(r.computer, r.key)
  }

  function Identity(r: Request): Digest {
    OfIdentity(r.computer, r.key)
  }

  /** The operation id carries the first half of the identity digest, the
      trajectory id the second. */
  function OperationId(slot: Slot): Digest {
    FirstHalf(OfIdentity(slot.computer, slot.key))
  }

  function TrajectoryId(slot: Slot): Digest {
    SecondHalf(OfIdentity(slot.computer, slot.key))
  }

  function Commitment(r: Request): Digest {
    OfRequest(r.computer, r.key, OfBytes(r.prompt))
  }

  // -------------------------------------------------------------------- one step

  /** What the world answers: whether the call works, whether the signed mode
      authorises a proposal, what the appender pins, and whether its success is
      reported back. */
  datatype Answer = Answer(works: bool, authorized: bool, artifact: Text, head: Text, reported: bool)

  /** The event found under an idempotency key, if any. */
  function FindEvent(events: seq<Event>, computer: Text, identity: Digest): Option<Event>
    decreases |events|
  {
    if events == [] then None
    else if events[0].computer == computer && events[0].identity == identity then Some(events[0])
    else FindEvent(events[1..], computer, identity)
  }

  /** recoveredStartPromptRef: the durable event must carry this request's binding. */
  function RecoveredPromptRef(e: Event, r: Request): Option<Text> {
    if e.computer != r.computer || e.trajectory != TrajectoryId(SlotOf(r)) || e.identity != Identity(r)
      || e.decision != Commitment(r) || e.owner != r.owner then None
    else Some(e.artifact)
  }

  function StartEvent(r: Request, a: Answer): Event {
    Event(r.computer, Identity(r), TrajectoryId(SlotOf(r)), Commitment(r), r.owner, a.artifact, a.head)
  }

  function NewOperation(r: Request, e: Event): Operation {
    Operation(SlotOf(r), OperationId(SlotOf(r)), TrajectoryId(SlotOf(r)), Commitment(r), e.artifact, e.previousHead)
  }

  function SetPc(s: State, t: nat, pc: Pc): State
    requires t < |s.threads|
  {
    s.(threads := s.threads[t := s.threads[t].(pc := pc)])
  }

  predicate Bound(s: State, r: Request) {
    SlotOf(r) in s.intents && s.intents[SlotOf(r)] == Commitment(r)
  }

  /** BindStartIntent: insert, or compare with what is bound. */
  function Bind(s: State, t: nat, next: Pc): State
    requires t < |s.threads|
  {
    var r := s.threads[t].req;
    if SlotOf(r) in s.intents then
      SetPc(s, t, if s.intents[SlotOf(r)] == Commitment(r) then next else Refused)
    else SetPc(s.(intents := s.intents[SlotOf(r) := Commitment(r)]), t, next)
  }

  /** The event append: its idempotency key is unique. */
  function AppendEvent(s: State, t: nat, a: Answer): State
    requires t < |s.threads|
  {
    var r := s.threads[t].req;
    if FindEvent(s.events, r.computer, Identity(r)).Some? then SetPc(s, t, Failed)
    else SetPc(s.(events := s.events + [StartEvent(r, a)]), t, if a.reported then Rereading else Failed)
  }

  /** Start: insert, or return what is stored under the key. */
  function StartOperation(s: State, t: nat, e: Event): State
    requires t < |s.threads|
  {
    var r := s.threads[t].req;
    if SlotOf(r) in s.ops then
      SetPc(s, t, if s.ops[SlotOf(r)].commitment == Commitment(r) then Ensuring(s.ops[SlotOf(r)]) else Refused)
    else
      var op := NewOperation(r, e);
      SetPc(s.(ops := s.ops[SlotOf(r) := op]), t, Ensuring(op))
  }

  predicate Finished(pc: Pc) {
    pc.Done? || pc.Refused? || pc.Failed?
  }

  function Advance(s: State, t: nat, a: Answer): State
    requires t < |s.threads|
  {
    var r := s.threads[t].req;
    if Finished(s.threads[t].pc) then s
    else if !a.works then SetPc(s, t, Failed)
    else
      match s.threads[t].pc
      case Begin =>
        if SlotOf(r) in s.ops then
          SetPc(s, t, if s.ops[SlotOf(r)].commitment == Commitment(r) then Ensuring(s.ops[SlotOf(r)]) else Refused)
        else SetPc(s, t, ReadingEvent)
      case ReadingEvent =>
        (match FindEvent(s.events, r.computer, Identity(r))
         case None => SetPc(s, t, CheckingMode)
         case Some(e) => SetPc(s, t, if RecoveredPromptRef(e, r).Some? then Rebinding(e) else Refused))
      case CheckingMode => SetPc(s, t, if a.authorized then Binding else Refused)
      case Binding => Bind(s, t, Appending)
      case Appending => AppendEvent(s, t, a)
      case Rereading =>
        (match FindEvent(s.events, r.computer, Identity(r))
         case None => SetPc(s, t, Failed)
         case Some(e) => SetPc(s, t, if RecoveredPromptRef(e, r).Some? then Starting(e) else Refused))
      case Rebinding(e) => Bind(s, t, Starting(e))
      case Starting(e) => StartOperation(s, t, e)
      case Ensuring(op) => SetPc(s, t, Done(op))
      case _ => s
  }

  datatype Label =
    | Arrive(r: Request)
    | Next(t: nat, a: Answer)
    | Crash

  /** A crash ends every request that is being served. */
  function Step(s: State, l: Label): State {
    match l
    case Arrive(r) =>
      if r.key == [] || r.prompt == [] then s else s.(threads := s.threads + [Thread(r, Begin)])
    case Next(t, a) => if t < |s.threads| then Advance(s, t, a) else s
    case Crash => s.(threads := seq(|s.threads|, t requires 0 <= t < |s.threads| => Stopped(s.threads[t])))
  }

  function Stopped(th: Thread): Thread {
    if Finished(th.pc) then th else th.(pc := Failed)
  }

  function Exec(s: State, ls: seq<Label>): State
    decreases |ls|
  {
    if ls == [] then s else Step(Exec(s, ls[..|ls| - 1]), ls[|ls| - 1])
  }

  // ------------------------------------------------------------------- invariant

  /** The event carries the binding of some request with this slot. */
  predicate EventFor(e: Event, slot: Slot) {
    e.computer == slot.computer && e.identity == OfIdentity(slot.computer, slot.key)
  }

  ghost predicate EventsOk(s: State) {
    && (forall j :: 0 <= j < |s.events| ==>
          var e := s.events[j];
          && e.identity.OfIdentity? && e.identity.computer == e.computer && e.trajectory == SecondHalf(e.identity)
          && Slot(e.computer, e.identity.key) in s.intents && s.intents[Slot(e.computer, e.identity.key)] == e.decision)
    && (forall j, k :: 0 <= j < k < |s.events| ==> s.events[j].identity != s.events[k].identity)
  }

  ghost predicate OpOk(s: State, slot: Slot)
    requires slot in s.ops
  {
    var op := s.ops[slot];
    && op.slot == slot && op.id == OperationId(slot) && op.trajectory == TrajectoryId(slot)
    && slot in s.intents && s.intents[slot] == op.commitment
    && exists e :: e in s.events && EventFor(e, slot) && e.artifact == op.promptRef && e.previousHead == op.baseHead
  }

  ghost predicate ThreadOk(s: State, th: Thread) {
    match th.pc
    case Appending => Bound(s, th.req)
    case Rereading => Bound(s, th.req)
    case Rebinding(e) => e in s.events && EventFor(e, SlotOf(th.req)) && e.decision == Commitment(th.req)
    case Starting(e) => e in s.events && EventFor(e, SlotOf(th.req)) && Bound(s, th.req)
    case Ensuring(op) => Bound(s, th.req) && SlotOf(th.req) in s.ops && s.ops[SlotOf(th.req)] == op
    case Done(op) => Bound(s, th.req) && SlotOf(th.req) in s.ops && s.ops[SlotOf(th.req)] == op
    case _ => true
  }

  ghost predicate Inv(s: State) {
    && EventsOk(s)
    && (forall slot :: slot in s.ops ==> OpOk(s, slot))
    && (forall t :: 0 <= t < |s.threads| ==> ThreadOk(s, s.threads[t]))
  }

  /** The tables only grow, and nothing bound is rebound. */
  ghost predicate Grows(s: State, s': State) {
    && (forall slot :: slot in s.intents ==> slot in s'.intents && s'.intents[slot] == s.intents[slot])
    && (forall slot :: slot in s.ops ==> slot in s'.ops && s'.ops[slot] == s.ops[slot])
    && s.events <= s'.events
  }

  lemma {:induction false} FindEventFinds(events: seq<Event>, computer: Text, identity: Digest)
    ensures match FindEvent(events, computer, identity)
            case Some(e) => e in events && e.computer == computer && e.identity == identity
            case None => forall e :: e in events ==> !(e.computer == computer && e.identity == identity)
    decreases |events|
  {
    if events != [] {
      FindEventFinds(events[1..], computer, identity);
      assert events == [events[0]] + events[1..];
    }
  }

  lemma ThreadOkGrows(s: State, s': State, th: Thread)
    requires ThreadOk(s, th) && Grows(s, s')
    ensures ThreadOk(s', th)
  {
  }

  lemma OpOkGrows(s: State, s': State, slot: Slot)
    requires slot in s.ops && OpOk(s, slot) && Grows(s, s')
    ensures OpOk(s', slot)
  {
  }

  /** One thread moves; everyone else only sees tables that grew. */
  lemma ThreadMoves(s: State, s': State, t: nat)
    requires Inv(s) && Grows(s, s') && t < |s.threads| == |s'.threads|
    requires s'.threads == s.threads[t := s'.threads[t]] && ThreadOk(s', s'.threads[t])
    requires EventsOk(s') && (forall slot :: slot in s'.ops && slot !in s.ops ==> OpOk(s', slot))
    ensures Inv(s')
  {
    hide EventsOk, OpOk, ThreadOk;
    forall slot | slot in s'.ops ensures OpOk(s', slot) {
      if slot in s.ops {
        OpOkGrows(s, s', slot);
      }
    }
    forall j | 0 <= j < |s'.threads| ensures ThreadOk(s', s'.threads[j]) {
      if j != t {
        ThreadOkGrows(s, s', s.threads[j]);
      }
    }
  }

  lemma PcMoves(s: State, t: nat, pc: Pc)
    requires Inv(s) && t < |s.threads| && ThreadOk(s, s.threads[t].(pc := pc))
    ensures Inv(SetPc(s, t, pc)) && Grows(s, SetPc(s, t, pc))
  {
    var s' := SetPc(s, t, pc);
    assert ThreadOk(s', s'.threads[t]);
    ThreadMoves(s, s', t);
  }

  lemma BindKeepsInv(s: State, t: nat, next: Pc)
    requires Inv(s) && t < |s.threads|
    requires next == Appending || (next.Starting? && s.threads[t].pc == Rebinding(next.event))
    ensures Inv(Bind(s, t, next)) && Grows(s, Bind(s, t, next))
  {
    var r := s.threads[t].req;
    if SlotOf(r) in s.intents {
      PcMoves(s, t, if s.intents[SlotOf(r)] == Commitment(r) then next else Refused);
    } else {
      ThreadMoves(s, Bind(s, t, next), t);
    }
  }

  lemma AppendKeepsInv(s: State, t: nat, a: Answer)
    requires Inv(s) && t < |s.threads| && s.threads[t].pc == Appending
    ensures Inv(AppendEvent(s, t, a)) && Grows(s, AppendEvent(s, t, a))
  {
    var r := s.threads[t].req;
    FindEventFinds(s.events, r.computer, Identity(r));
    if FindEvent(s.events, r.computer, Identity(r)).Some? {
      PcMoves(s, t, Failed);
    } else {
      var s' := AppendEvent(s, t, a);
      assert Bound(s, r) by {
        assert ThreadOk(s, s.threads[t]);
      }
      AppendKeepsEvents(s, s', r, a);
      ThreadMoves(s, s', t);
    }
  }

  lemma AppendKeepsEvents(s: State, s': State, r: Request, a: Answer)
    requires EventsOk(s) && Bound(s, r) && s'.intents == s.intents && s'.events == s.events + [StartEvent(r, a)]
    requires forall e :: e in s.events ==> !(e.computer == r.computer && e.identity == Identity(r))
    ensures EventsOk(s')
  {
  }

  lemma StartKeepsInv(s: State, t: nat, e: Event)
    requires Inv(s) && t < |s.threads| && s.threads[t].pc == Starting(e)
    ensures Inv(StartOperation(s, t, e)) && Grows(s, StartOperation(s, t, e))
  {
    var r := s.threads[t].req;
    assert ThreadOk(s, s.threads[t]);
    if SlotOf(r) in s.ops {
      assert OpOk(s, SlotOf(r));
      PcMoves(s, t, if s.ops[SlotOf(r)].commitment == Commitment(r) then Ensuring(s.ops[SlotOf(r)]) else Refused);
    } else {
      var s' := StartOperation(s, t, e);
      assert OpOk(s', SlotOf(r));
      ThreadMoves(s, s', t);
    }
  }

  lemma AdvanceKeepsInv(s: State, t: nat, a: Answer)
    requires Inv(s) && t < |s.threads|
    ensures Inv(Advance(s, t, a)) && Grows(s, Advance(s, t, a))
  {
    hide Inv, Grows, Bind, AppendEvent, StartOperation, SetPc, OpOk, EventsOk;
    var th := s.threads[t];
    var r := th.req;
    ThreadAndOp(s, t);
    GrowsHere(s);
    if !Finished(th.pc) {
      if !a.works {
        PcMoves(s, t, Failed);
      } else {
        match th.pc
        case Begin =>
          PcMoves(s, t, if SlotOf(r) !in s.ops then ReadingEvent
                        else if s.ops[SlotOf(r)].commitment == Commitment(r) then Ensuring(s.ops[SlotOf(r)]) else Refused);
        case ReadingEvent =>
          FindEventFinds(s.events, r.computer, Identity(r));
          match FindEvent(s.events, r.computer, Identity(r)) {
            case None => PcMoves(s, t, CheckingMode);
            case Some(e) => PcMoves(s, t, if RecoveredPromptRef(e, r).Some? then Rebinding(e) else Refused);
          }
        case CheckingMode => PcMoves(s, t, if a.authorized then Binding else Refused);
        case Binding => BindKeepsInv(s, t, Appending);
        case Appending => AppendKeepsInv(s, t, a);
        case Rereading =>
          FindEventFinds(s.events, r.computer, Identity(r));
          match FindEvent(s.events, r.computer, Identity(r)) {
            case None => PcMoves(s, t, Failed);
            case Some(e) => PcMoves(s, t, if RecoveredPromptRef(e, r).Some? then Starting(e) else Refused);
          }
        case Rebinding(e) => BindKeepsInv(s, t, Starting(e));
        case Starting(e) => StartKeepsInv(s, t, e);
        case Ensuring(op) => PcMoves(s, t, Done(op));
      }
    }
  }

  lemma ThreadAndOp(s: State, t: nat)
    requires Inv(s) && t < |s.threads|
    ensures ThreadOk(s, s.threads[t])
    ensures var slot := SlotOf(s.threads[t].req);
            slot in s.ops ==> slot in s.intents && s.intents[slot] == s.ops[slot].commitment
  {
  }

  lemma GrowsHere(s: State)
    ensures Grows(s, s)
  {
  }

  lemma StepKeepsInv(s: State, l: Label)
    requires Inv(s)
    ensures Inv(Step(s, l)) && Grows(s, Step(s, l))
  {
    hide Advance, EventsOk, OpOk;
    match l
    case Next(t, a) =>
      if t < |s.threads| {
        AdvanceKeepsInv(s, t, a);
      }
    case Arrive(r) => TablesSame(s, Step(s, l));
    case Crash => TablesSame(s, Step(s, l));
  }

  lemma TablesSame(s: State, s': State)
    requires Inv(s) && s' == s.(threads := s'.threads)
    requires forall t :: 0 <= t < |s'.threads| ==> s'.threads[t].pc in {Begin, Failed} || (t < |s.threads| && s'.threads[t] == s.threads[t])
    ensures Inv(s') && Grows(s, s')
  {
  }

  lemma {:induction false} RunKeepsInv(s: State, ls: seq<Label>)
    requires Inv(s)
    ensures Inv(Exec(s, ls)) && Grows(s, Exec(s, ls))
    decreases |ls|
  {
    hide Inv, Step;
    if ls != [] {
      RunKeepsInv(s, ls[..|ls| - 1]);
      StepKeepsInv(Exec(s, ls[..|ls| - 1]), ls[|ls| - 1]);
    }
  }

  lemma ReachableInv(ls: seq<Label>)
    ensures Inv(Exec(Init(), ls))
  {
    RunKeepsInv(Init(), ls);
  }

  // --------------------------------------------------------------------- theorems

  /** However requests, crashes and retries interleave, all that succeed for one
      computer and key return one operation, with the ids derived from that pair,
      made from one TrajectoryStarted event and one prompt. */
  lemma OneStart(ls: seq<Label>, i: nat, j: nat)
    requires var s := Exec(Init(), ls);
             && i < |s.threads| && j < |s.threads| && s.threads[i].pc.Done? && s.threads[j].pc.Done?
             && s.threads[i].req.computer == s.threads[j].req.computer && s.threads[i].req.key == s.threads[j].req.key
    ensures var s := Exec(Init(), ls); var r := s.threads[i].req;
            && s.threads[i].pc == s.threads[j].pc
            && r.prompt == s.threads[j].req.prompt
            && s.threads[i].pc.op.id == FirstHalf(OfIdentity(r.computer, r.key))
            && s.threads[i].pc.op.trajectory == SecondHalf(OfIdentity(r.computer, r.key))
            && s.threads[i].pc.op.commitment == OfRequest(r.computer, r.key, OfBytes(r.prompt))
            && exists n: nat :: n < |s.events| && StartedBy(s, n, s.threads[i].pc.op)
  {
    hide EventsOk, Exec;
    ReachableInv(ls);
    var s := Exec(Init(), ls);
    assert ThreadOk(s, s.threads[i]) && ThreadOk(s, s.threads[j]);
    var slot := SlotOf(s.threads[i].req);
    assert OpOk(s, slot);
    var op := s.ops[slot];
    var e :| e in s.events && EventFor(e, slot) && e.artifact == op.promptRef && e.previousHead == op.baseHead;
    var n: nat :| n < |s.events| && s.events[n] == e;
    OnlyEvent(s, n, op);
  }

  /** No request of the slot gets an authorized answer where the mode is checked. */
  ghost predicate NeverAuthorized(ls: seq<Label>, slot: Slot) {
    forall i :: 0 <= i < |ls| && ls[i].Next? ==>
      var s := Exec(Init(), ls[..i]);
      ls[i].t < |s.threads| && s.threads[ls[i].t].pc == CheckingMode
      && s.threads[ls[i].t].req.computer == slot.computer && s.threads[ls[i].t].req.key == slot.key ==>
        !ls[i].a.works || !ls[i].a.authorized
  }

  /** Nothing is stored for the slot, and no request of it got past the check. */
  ghost predicate Untouched(s: State, slot: Slot) {
    && slot !in s.intents && slot !in s.ops
    && (forall e :: e in s.events ==> !(e.computer == slot.computer && e.identity == OfIdentity(slot.computer, slot.key)))
    && (forall t :: 0 <= t < |s.threads| && s.threads[t].req.computer == slot.computer && s.threads[t].req.key == slot.key ==>
          s.threads[t].pc in {Begin, ReadingEvent, CheckingMode, Refused, Failed})
  }

  /** Without an authorized answer nothing starts: no intent, no event and no
      operation for the slot, however often it is requested. */
  lemma {:induction false} UnauthorizedNeverStarts(ls: seq<Label>, slot: Slot)
    requires NeverAuthorized(ls, slot)
    ensures Untouched(Exec(Init(), ls), slot)
    decreases |ls|
  {
    hide Untouched, Advance;
    if ls == [] {
      UntouchedInit(slot);
    } else {
      var before := ls[..|ls| - 1];
      assert forall i :: 0 <= i < |before| ==> before[..i] == ls[..i];
      UnauthorizedNeverStarts(before, slot);
      StepUntouched(Exec(Init(), before), ls[|ls| - 1], slot);
    }
  }

  lemma UntouchedInit(slot: Slot)
    ensures Untouched(Init(), slot)
  {
  }

  lemma StepUntouched(s: State, l: Label, slot: Slot)
    requires Untouched(s, slot)
    requires l.Next? && l.t < |s.threads| && s.threads[l.t].pc == CheckingMode && SlotOf(s.threads[l.t].req) == slot ==>
               !l.a.works || !l.a.authorized
    ensures Untouched(Step(s, l), slot)
  {
    hide Bind, AppendEvent, StartOperation, FindEvent;
    if l.Next? && l.t < |s.threads| {
      if SlotOf(s.threads[l.t].req) == slot {
        FindEventFinds(s.events, slot.computer, Identity(s.threads[l.t].req));
      } else {
        OtherSlotUntouched(s, l.t, l.a, slot);
      }
    }
  }

  lemma OtherSlotUntouched(s: State, t: nat, a: Answer, slot: Slot)
    requires Untouched(s, slot) && t < |s.threads| && SlotOf(s.threads[t].req) != slot
    ensures Untouched(Advance(s, t, a), slot)
  {
    hide FindEvent, RecoveredPromptRef;
  }

  /** The n-th event is the one the operation was made from, and the only one of its slot. */
  ghost predicate StartedBy(s: State, n: nat, op: Operation)
    requires n < |s.events|
  {
    && EventFor(s.events[n], op.slot)
    && op.promptRef == s.events[n].artifact && op.baseHead == s.events[n].previousHead
    && forall k :: 0 <= k < |s.events| && EventFor(s.events[k], op.slot) ==> k == n
  }

  lemma OnlyEvent(s: State, n: nat, op: Operation)
    requires EventsOk(s) && n < |s.events| && EventFor(s.events[n], op.slot)
    requires op.promptRef == s.events[n].artifact && op.baseHead == s.events[n].previousHead
    ensures StartedBy(s, n, op)
  {
  }

  /** Once a key is bound, a different prompt under it never succeeds, whatever
      happens afterwards, and never touches the bound operation. */
  lemma OtherPromptRefused(ls: seq<Label>, ms: seq<Label>, slot: Slot, t: nat)
    requires slot in Exec(Init(), ls).intents
    requires var s := Exec(Exec(Init(), ls), ms);
             && t < |s.threads| && s.threads[t].req.computer == slot.computer && s.threads[t].req.key == slot.key
             && OfRequest(slot.computer, slot.key, OfBytes(s.threads[t].req.prompt)) != Exec(Init(), ls).intents[slot]
    ensures var s := Exec(Exec(Init(), ls), ms);
            && !s.threads[t].pc.Done? && !s.threads[t].pc.Ensuring? && !s.threads[t].pc.Starting? && !s.threads[t].pc.Appending?
            && slot in s.intents && s.intents[slot] == Exec(Init(), ls).intents[slot]
            && (slot in s.ops ==> s.ops[slot].commitment == s.intents[slot])
  {
    hide EventsOk, Exec;
    ReachableInv(ls);
    RunKeepsInv(Exec(Init(), ls), ms);
    var s := Exec(Exec(Init(), ls), ms);
    assert ThreadOk(s, s.threads[t]);
    assert slot in s.ops ==> OpOk(s, slot);
  }

  // ---------------------------------------------------------------------- retries

  /** A request served to the end with nothing in its way. */
  function Solo(s: State, t: nat, a: Answer, n: nat): State
    requires t < |s.threads|
    decreases n
  {
    if n == 0 then s
    else
      var s' := Advance(s, t, a);
      if t < |s'.threads| then Solo(s', t, a, n - 1) else s'
  }

  function Arrived(s: State, r: Request): State {
    s.(threads := s.threads + [Thread(r, Begin)])
  }

  /** Nothing stored under the key contradicts the request. An existing operation
      answers for any owner; an event without an operation only for its own. */
  predicate Compatible(s: State, r: Request) {
    var slot := Slot(r.computer, r.key);
    && (slot in s.intents ==> s.intents[slot] == OfRequest(r.computer, r.key, OfBytes(r.prompt)))
    && (slot in s.ops
        || var e := FindEvent(s.events, r.computer, OfIdentity(r.computer, r.key));
           e.None? || e.value.owner == r.owner)
  }

  lemma SoloUnfold(s: State, t: nat, a: Answer, n: nat)
    requires t < |s.threads| && n > 0 && t < |Advance(s, t, a).threads|
    ensures Solo(s, t, a, n) == Solo(Advance(s, t, a), t, a, n - 1)
  {
  }

  lemma {:induction false} FinishedStays(s: State, t: nat, a: Answer, n: nat)
    requires t < |s.threads| && Finished(s.threads[t].pc)
    ensures Solo(s, t, a, n) == s
    decreases n
  {
    if n > 0 {
      FinishedStays(s, t, a, n - 1);
    }
  }

  lemma RequestsStay(s: State, t: nat, a: Answer)
    requires t < |s.threads|
    ensures var s' := Advance(s, t, a);
            |s'.threads| == |s.threads| && forall k :: 0 <= k < |s.threads| ==> s'.threads[k].req == s.threads[k].req
  {
    hide FindEvent, RecoveredPromptRef, Commitment, StartEvent, NewOperation, SlotOf;
  }

  function Nexts(t: nat, a: Answer, n: nat): seq<Label> {
    if n == 0 then [] else Nexts(t, a, n - 1) + [Next(t, a)]
  }

  lemma {:induction false} SoloKeepsLength(s: State, t: nat, a: Answer, n: nat)
    requires t < |s.threads|
    ensures |Solo(s, t, a, n).threads| == |s.threads|
    decreases n
  {
    hide Advance;
    if n > 0 {
      RequestsStay(s, t, a);
      SoloKeepsLength(Advance(s, t, a), t, a, n - 1);
    }
  }

  lemma {:induction false} SoloSnoc(s: State, t: nat, a: Answer, n: nat)
    requires t < |s.threads| && t < |Solo(s, t, a, n).threads|
    ensures Solo(s, t, a, n + 1) == Advance(Solo(s, t, a, n), t, a)
    decreases n
  {
    hide Advance;
    RequestsStay(s, t, a);
    SoloUnfold(s, t, a, n + 1);
    if n > 0 {
      SoloUnfold(s, t, a, n);
      SoloSnoc(Advance(s, t, a), t, a, n - 1);
    }
  }

  /** Serving a request to its end is a run of the machine. */
  lemma {:induction false} ServingIsRun(ls: seq<Label>, t: nat, a: Answer, n: nat)
    requires t < |Exec(Init(), ls).threads|
    ensures Exec(Init(), ls + Nexts(t, a, n)) == Solo(Exec(Init(), ls), t, a, n)
    decreases n
  {
    hide Advance;
    if n == 0 {
      assert ls + Nexts(t, a, n) == ls;
    } else {
      ServingIsRun(ls, t, a, n - 1);
      SoloKeepsLength(Exec(Init(), ls), t, a, n - 1);
      SoloSnoc(Exec(Init(), ls), t, a, n - 1);
      var ms := ls + Nexts(t, a, n);
      assert ms[..|ms| - 1] == ls + Nexts(t, a, n - 1) && ms[|ms| - 1] == Next(t, a);
    }
  }

  /** A crash ends every unanswered request and loses nothing that is stored. */
  lemma CrashEnds(s: State, t: nat)
    requires t < |s.threads|
    ensures var s' := Step(s, Crash); var pc := s.threads[t].pc;
            && s' == s.(threads := s'.threads) && |s'.threads| == |s.threads| && s'.threads[t].req == s.threads[t].req
            && s'.threads[t].pc == if pc.Done? || pc.Refused? then pc else Failed
  {
  }

  lemma ArrivesFirst(ls: seq<Label>, r: Request)
    requires r.key != [] && r.prompt != []
    ensures Exec(Init(), ls + [Arrive(r)]) == Arrived(Exec(Init(), ls), r)
  {
    assert (ls + [Arrive(r)])[..|ls|] == ls;
  }

  /** The request was answered with the stored operation. */
  ghost predicate Answered(s: State, t: nat) {
    && t < |s.threads| && s.threads[t].pc.Done?
    && SlotOf(s.threads[t].req) in s.ops && s.threads[t].pc.op == s.ops[SlotOf(s.threads[t].req)]
  }

  lemma SoloFromEnsuring(s: State, t: nat, a: Answer, n: nat)
    requires Inv(s) && t < |s.threads| && s.threads[t].pc.Ensuring? && a.works && n >= 1
    ensures Answered(Solo(s, t, a, n), t) && Solo(s, t, a, n).events == s.events
    ensures Solo(s, t, a, n).threads[t].req == s.threads[t].req
  {
    hide EventsOk, OpOk;
    ThreadAndOp(s, t);
    SoloUnfold(s, t, a, n);
    FinishedStays(Advance(s, t, a), t, a, n - 1);
  }

  lemma SoloFromStarting(s: State, t: nat, a: Answer, n: nat)
    requires Inv(s) && t < |s.threads| && s.threads[t].pc.Starting? && a.works && n >= 2
    ensures Answered(Solo(s, t, a, n), t) && Solo(s, t, a, n).events == s.events
    ensures Solo(s, t, a, n).threads[t].req == s.threads[t].req
  {
    hide EventsOk, OpOk, Solo, Answered;
    ThreadAndOp(s, t);
    AdvanceKeepsInv(s, t, a);
    SoloUnfold(s, t, a, n);
    SoloFromEnsuring(Advance(s, t, a), t, a, n - 1);
  }

  /** With an event stored, a retry appends none: it rebinds and starts from it. */
  lemma SoloFromEvent(s: State, t: nat, a: Answer, n: nat)
    requires Inv(s) && t < |s.threads| && s.threads[t].pc == ReadingEvent && a.works && n >= 4
    requires FindEvent(s.events, s.threads[t].req.computer, Identity(s.threads[t].req)).Some?
    ensures Compatible(s, s.threads[t].req) && SlotOf(s.threads[t].req) !in s.ops ==>
              Answered(Solo(s, t, a, n), t) && Solo(s, t, a, n).events == s.events
    ensures !Compatible(s, s.threads[t].req) && SlotOf(s.threads[t].req) !in s.ops ==>
              Solo(s, t, a, n) == SetPc(s, t, Refused)
  {
    hide OpOk, Solo, Answered, ThreadOk;
    var r := s.threads[t].req;
    FindEventFinds(s.events, r.computer, Identity(r));
    var e := FindEvent(s.events, r.computer, Identity(r)).value;
    var s1 := Advance(s, t, a);
    SoloUnfold(s, t, a, n);
    AdvanceKeepsInv(s, t, a);
    EventBinds(s, e, r);
    if RecoveredPromptRef(e, r).Some? {
      var s2 := Advance(s1, t, a);
      SoloUnfold(s1, t, a, n - 1);
      AdvanceKeepsInv(s1, t, a);
      SoloFromStarting(s2, t, a, n - 2);
    } else {
      FinishedStays(s1, t, a, n - 1);
    }
  }

  /** The stored event decides compatibility. */
  lemma EventBinds(s: State, e: Event, r: Request)
    requires EventsOk(s) && e in s.events && e.computer == r.computer && e.identity == Identity(r)
    ensures e.trajectory == TrajectoryId(SlotOf(r)) && SlotOf(r) in s.intents && s.intents[SlotOf(r)] == e.decision
  {
  }

  /** With nothing stored but perhaps the intent, a retry runs the whole way. */
  lemma SoloFromNothing(s: State, t: nat, a: Answer, n: nat)
    requires Inv(s) && t < |s.threads| && s.threads[t].pc == Binding && a.works && a.reported && n >= 5
    requires FindEvent(s.events, s.threads[t].req.computer, Identity(s.threads[t].req)).None?
    ensures SlotOf(s.threads[t].req) !in s.intents || s.intents[SlotOf(s.threads[t].req)] == Commitment(s.threads[t].req) ==>
              Answered(Solo(s, t, a, n), t) && Solo(s, t, a, n).events == s.events + [StartEvent(s.threads[t].req, a)]
    ensures SlotOf(s.threads[t].req) in s.intents && s.intents[SlotOf(s.threads[t].req)] != Commitment(s.threads[t].req) ==>
              Solo(s, t, a, n) == SetPc(s, t, Refused)
  {
    hide OpOk, Solo, Answered, ThreadOk, EventsOk, FindEvent;
    var r := s.threads[t].req;
    var s1 := Advance(s, t, a);
    SoloUnfold(s, t, a, n);
    AdvanceKeepsInv(s, t, a);
    if SlotOf(r) in s.intents && s.intents[SlotOf(r)] != Commitment(r) {
      FinishedStays(s1, t, a, n - 1);
    } else {
      var s2 := Advance(s1, t, a);
      SoloUnfold(s1, t, a, n - 1);
      AdvanceKeepsInv(s1, t, a);
      FindAppended(s.events, StartEvent(r, a));
      var s3 := Advance(s2, t, a);
      SoloUnfold(s2, t, a, n - 2);
      AdvanceKeepsInv(s2, t, a);
      SoloFromStarting(s3, t, a, n - 3);
    }
  }

  lemma {:induction false} FindAppended(events: seq<Event>, e: Event)
    requires FindEvent(events, e.computer, e.identity).None?
    ensures FindEvent(events + [e], e.computer, e.identity) == Some(e)
    decreases |events|
  {
    if events != [] {
      assert (events + [e])[1..] == events[1..] + [e];
      FindAppended(events[1..], e);
    }
  }

  /** The request may go on: something stored answers for it, or the mode does. */
  predicate Admitted(s: State, r: Request, a: Answer) {
    || a.authorized || Slot(r.computer, r.key) in s.ops
    || FindEvent(s.events, r.computer, OfIdentity(r.computer, r.key)).Some?
  }

  /** Retries converge: from whatever point crashes left the tables in, a request
      that meets no failure succeeds exactly if it contradicts nothing bound and,
      with neither an operation nor an event stored, the signed mode authorizes it;
      it leaves one event for its key and appends no second one. Otherwise it is
      refused and the tables stay as they were. */
  lemma RetryConverges(ls: seq<Label>, r: Request, a: Answer)
    requires a.works && a.reported && r.key != [] && r.prompt != []
    ensures var s := Exec(Init(), ls); var t := |s.threads|; var s' := Solo(Arrived(s, r), t, a, 8);
            && Exec(Init(), ls + [Arrive(r)] + Nexts(t, a, 8)) == s'
            && (Compatible(s, r) && Admitted(s, r, a) ==> Answered(s', t) && s'.events == EventsAfter(s, r, a))
            && (!Compatible(s, r) || !Admitted(s, r, a) ==>
                  t < |s'.threads| && s'.threads[t].pc == Refused
                  && s'.intents == s.intents && s'.events == s.events && s'.ops == s.ops)
  {
    hide Exec, Answered, ThreadOk, EventsOk, OpOk, Solo, FindEvent;
    ReachableInv(ls);
    var s := Exec(Init(), ls);
    var t := |s.threads|;
    var s0 := Arrived(s, r);
    ArrivesFirst(ls, r);
    ServingIsRun(ls + [Arrive(r)], t, a, 8);
    TablesSame(s, s0);
    ThreadAndOp(s0, t);
    AdvanceKeepsInv(s0, t, a);
    SoloUnfold(s0, t, a, 8);
    var s1 := Advance(s0, t, a);
    if SlotOf(r) in s.ops {
      if s.ops[SlotOf(r)].commitment == Commitment(r) {
        SoloFromEnsuring(s1, t, a, 7);
      } else {
        FinishedStays(s1, t, a, 7);
      }
    } else if FindEvent(s.events, r.computer, Identity(r)).Some? {
      SoloFromEvent(s1, t, a, 7);
    } else {
      var s2 := Advance(s1, t, a);
      SoloUnfold(s1, t, a, 7);
      AdvanceKeepsInv(s1, t, a);
      SoloUnfold(s2, t, a, 6);
      AdvanceKeepsInv(s2, t, a);
      if a.authorized {
        SoloFromNothing(Advance(s2, t, a), t, a, 5);
      } else {
        FinishedStays(Advance(s2, t, a), t, a, 5);
      }
    }
  }

  /** When a call fails, the request ends there: undisturbed it fails at once and
      the tables stay as they were. */
  lemma FailingCallEnds(ls: seq<Label>, r: Request, a: Answer)
    requires !a.works
    ensures var s := Exec(Init(), ls); var t := |s.threads|; var s' := Solo(Arrived(s, r), t, a, 8);
            && t < |s'.threads| && s'.threads[t].pc == Failed
            && s'.intents == s.intents && s'.events == s.events && s'.ops == s.ops
  {
    hide Exec, Solo;
    var s := Exec(Init(), ls);
    SoloUnfold(Arrived(s, r), |s.threads|, a, 8);
    FinishedStays(Advance(Arrived(s, r), |s.threads|, a), |s.threads|, a, 7);
  }

  /** When only the report of the append is lost, the request fails although its
      intent is bound and its event stored; no operation is made of it yet. */
  lemma LostReportKeepsEvent(ls: seq<Label>, r: Request, a: Answer)
    requires a.works && !a.reported && a.authorized && Compatible(Exec(Init(), ls), r)
    requires var s := Exec(Init(), ls);
             Slot(r.computer, r.key) !in s.ops && FindEvent(s.events, r.computer, OfIdentity(r.computer, r.key)).None?
    ensures var s := Exec(Init(), ls); var t := |s.threads|; var s' := Solo(Arrived(s, r), t, a, 8);
            && t < |s'.threads| && s'.threads[t].pc == Failed
            && s'.events == EventsAfter(s, r, a) && s'.ops == s.ops
            && s'.intents == s.intents[Slot(r.computer, r.key) := OfRequest(r.computer, r.key, OfBytes(r.prompt))]
  {
    hide Exec, Solo, FindEvent;
    var s := Exec(Init(), ls);
    var t := |s.threads|;
    var s0 := Arrived(s, r);
    SoloUnfold(s0, t, a, 8);
    var s1 := Advance(s0, t, a);
    SoloUnfold(s1, t, a, 7);
    var s2 := Advance(s1, t, a);
    SoloUnfold(s2, t, a, 6);
    SoloLost(Advance(s2, t, a), t, a, 5);
  }

  lemma SoloLost(s: State, t: nat, a: Answer, n: nat)
    requires t < |s.threads| && s.threads[t].pc == Binding && a.works && !a.reported && n >= 2
    requires var r := s.threads[t].req;
             FindEvent(s.events, r.computer, Identity(r)).None? && (SlotOf(r) in s.intents ==> Bound(s, r))
    ensures var r := s.threads[t].req; var s' := Solo(s, t, a, n);
            && t < |s'.threads| && s'.threads[t].pc == Failed
            && s'.events == s.events + [StartEvent(r, a)] && s'.ops == s.ops
            && s'.intents == s.intents[SlotOf(r) := Commitment(r)]
  {
    hide Solo, FindEvent, Bind, Bound, StartEvent, SlotOf, Commitment, Identity;
    BindIs(s, t);
    SoloUnfold(s, t, a, n);
    var s1 := Advance(s, t, a);
    SoloUnfold(s1, t, a, n - 1);
    FinishedStays(Advance(s1, t, a), t, a, n - 2);
  }

  lemma BindIs(s: State, t: nat)
    requires t < |s.threads| && (SlotOf(s.threads[t].req) in s.intents ==> Bound(s, s.threads[t].req))
    ensures Bind(s, t, Appending)
            == SetPc(s, t, Appending).(intents := s.intents[SlotOf(s.threads[t].req) := Commitment(s.threads[t].req)])
  {
    assert Bound(s, s.threads[t].req) ==> s.intents[SlotOf(s.threads[t].req) := Commitment(s.threads[t].req)] == s.intents;
  }

  /** Only requests with a key and a prompt are ever served. */
  lemma {:induction false} OnlyCompleteServed(ls: seq<Label>, t: nat)
    requires t < |Exec(Init(), ls).threads|
    ensures Exec(Init(), ls).threads[t].req.key != [] && Exec(Init(), ls).threads[t].req.prompt != []
    decreases |ls|
  {
    hide Advance;
    var n := |ls| - 1;
    var s := Exec(Init(), ls[..n]);
    if ls[n].Next? && ls[n].t < |s.threads| {
      RequestsStay(s, ls[n].t, ls[n].a);
    }
    if t < |s.threads| {
      OnlyCompleteServed(ls[..n], t);
    }
  }

  /** An event is appended only where neither operation nor event is stored; it
      pins the artifact and the head it was appended on. */
  function EventsAfter(s: State, r: Request, a: Answer): seq<Event> {
    var identity := OfIdentity(r.computer, r.key);
    if Slot(r.computer, r.key) in s.ops || FindEvent(s.events, r.computer, identity).Some? then s.events
    else
      s.events + [Event(r.computer, identity, SecondHalf(identity),
                        OfRequest(r.computer, r.key, OfBytes(r.prompt)), r.owner, a.artifact, a.head)]
  }
}
