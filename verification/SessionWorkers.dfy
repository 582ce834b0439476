/** Persistent session workers of the capsule broker: which worker a cell runs
    on, and when it may be used again. */
module SessionWorkers {
  import opened Updates
  import opened Wrappers

  // ----------------------------------------------------------------------- state

  /** What became of a cell: a typed result, or a transport failure or timeout. */
  datatype Outcome =
    | Ran(failed: bool, preserving: bool, intents: seq<Text>)
    | Broken

  /** The worker may run another cell after this outcome. */
  predicate Clean(o: Outcome) {
    o.Ran? && (!o.failed || o.preserving)
  }

  /** `cells` is history: the cells that reached this worker, in order. */
  datatype Cell = Cell(activation: Text, outcome: Outcome)
  datatype Worker = Worker(activation: Text, dead: bool, cells: seq<Cell>)

  datatype Reply = Session(open: bool) | Unavailable | DeadlinePassed | Result(outcome: Outcome, intents: seq<Text>)

  datatype Pc =
    | InitDropping
    | InitSpawning
    | Closing
    | Finding
    | Running(w: nat)
    | Discarding(reply: Reply)
    | Answered(reply: Reply)

  datatype Request = Request(activation: Text, pc: Pc)

  datatype State = State(workers: map<Text, nat>, pool: seq<Worker>, requests: seq<Request>)

  function Init(): State {
    State(map[], [], [])
  }

  // ------------------------------------------------------ the broker's operations

  function Kill(s: State, w: nat): State
    requires w < |s.pool|
  {
    s.(pool := s.pool[w := s.pool[w].(dead := true)])
  }

  /** dropSession: forget the activation's worker and make sure it is dead. */
  function Drop(s: State, g: Text): State {
    if g !in s.workers then s
    else
      var t := s.(workers := s.workers - {g});
      if s.workers[g] < |s.pool| then Kill(t, s.workers[g]) else t
  }

  datatype Lookup = Lookup(state: State, worker: Option<nat>)

  /** sessionFor: the live worker, or a new one if it can be spawned. */
  function Find(s: State, g: Text, spawns: bool): Lookup {
    if g in s.workers && s.workers[g] < |s.pool| && !s.pool[s.workers[g]].dead then Lookup(s, Some(s.workers[g]))
    else if !spawns then Lookup(s, None)
    else Lookup(Spawned(s, g), Some(|s.pool|))
  }

  /** eval on a live worker: the cell reaches it; a broken transport kills it. */
  function Evaluate(s: State, g: Text, w: nat, o: Outcome): State
    requires w < |s.pool|
  {
    var x := s.pool[w];
    s.(pool := s.pool[w := x.(cells := x.cells + [Cell(g, o)], dead := x.dead || o.Broken?)])
  }

  /** What the caller gets. Failed cells ship no intents. */
  function ReplyTo(o: Outcome): Reply {
    Result(o, if o.Ran? && !o.failed then o.intents else [])
  }

  function SetPc(s: State, r: nat, pc: Pc): State
    requires r < |s.requests|
  {
    s.(requests := s.requests[r := s.requests[r].(pc := pc)])
  }

  function Advance(s: State, r: nat, spawns: bool, o: Outcome): State
    requires r < |s.requests|
  {
    var g := s.requests[r].activation;
    match s.requests[r].pc
    case InitDropping => Drop(SetPc(s, r, InitSpawning), g)
    case InitSpawning =>
      var f := Find(SetPc(s, r, Answered(Session(true))), g, spawns);
      if f.worker.Some? then f.state else SetPc(s, r, Answered(Unavailable))
    case Closing => Drop(SetPc(s, r, Answered(Session(false))), g)
    case Finding =>
      var f := Find(s, g, spawns);
      if f.worker.None? then SetPc(s, r, Answered(Unavailable)) else SetPc(f.state, r, Running(f.worker.value))
    case Running(w) =>
      if w >= |s.pool| || s.pool[w].dead then SetPc(s, r, Discarding(ReplyTo(Broken)))
      else SetPc(Evaluate(s, g, w, o), r, if Clean(o) then Answered(ReplyTo(o)) else Discarding(ReplyTo(o)))
    case Discarding(reply) => Drop(SetPc(s, r, Answered(reply)), g)
    case Answered(_) => s
  }

  datatype Verb = InitSession | CloseSession | EvalCell

  datatype Label = Arrive(g: Text, verb: Verb) | Next(r: nat, spawns: bool, o: Outcome)

  function First(v: Verb): Pc {
    match v
    case InitSession => InitDropping
    case CloseSession => Closing
    case EvalCell => Finding
  }

  function Step(s: State, l: Label): State {
    match l
    case Arrive(g, v) => s.(requests := s.requests + [Request(g, First(v))])
    case Next(r, spawns, o) => if r < |s.requests| then Advance(s, r, spawns, o) else s
  }

  function Exec(s: State, ls: seq<Label>): State
    decreases |ls|
  {
    if ls == [] then s else Step(Exec(s, ls[..|ls| - 1]), ls[|ls| - 1])
  }

  // ---------------------------------------------------------------- serial requests

  predicate Open(q: Request) {
    !q.pc.Answered?
  }

  /** Requests of one activation come one at a time; activations interleave freely. */
  predicate Serial(s: State, l: Label) {
    l.Arrive? ==> forall r :: 0 <= r < |s.requests| && Open(s.requests[r]) ==> s.requests[r].activation != l.g
  }

  predicate SerialRun(ls: seq<Label>)
    decreases |ls|
  {
    ls == [] || (SerialRun(ls[..|ls| - 1]) && Serial(Exec(Init(), ls[..|ls| - 1]), ls[|ls| - 1]))
  }

  // -------------------------------------------------------------------- invariant

  /** All cells of the activation's own; all but the last one clean. */
  ghost predicate History(x: Worker) {
    && (forall k :: 0 <= k < |x.cells| ==> x.cells[k].activation == x.activation)
    && (forall k :: 0 <= k < |x.cells| - 1 ==> Clean(x.cells[k].outcome))
  }

  ghost predicate AllClean(x: Worker) {
    forall k :: 0 <= k < |x.cells| ==> Clean(x.cells[k].outcome)
  }

  /** Some open request of the activation is about to discard its worker. */
  predicate Discards(s: State, g: Text) {
    exists r :: 0 <= r < |s.requests| && s.requests[r].activation == g && s.requests[r].pc.Discarding?
  }

  ghost predicate PoolOk(s: State) {
    forall w :: 0 <= w < |s.pool| ==> History(s.pool[w])
  }

  /** A worker in the map is its activation's, and reusable unless it is being
      discarded; a worker that left the map is dead. */
  ghost predicate MapOk(s: State) {
    && (forall g :: g in s.workers ==> s.workers[g] < |s.pool| && s.pool[s.workers[g]].activation == g)
    && (forall g :: g in s.workers && !Discards(s, g) ==> AllClean(s.pool[s.workers[g]]) && !s.pool[s.workers[g]].dead)
    && (forall w :: 0 <= w < |s.pool| && !s.pool[w].dead ==>
          s.pool[w].activation in s.workers && s.workers[s.pool[w].activation] == w)
  }

  ghost predicate RequestOk(s: State, q: Request) {
    match q.pc
    case Running(w) => q.activation in s.workers && s.workers[q.activation] == w
    case InitSpawning => q.activation !in s.workers
    case _ => true
  }

  /** A reply carries intents only of a cell that ran without error. */
  ghost predicate ReplyOk(pc: Pc) {
    match pc
    case Discarding(reply) => reply.Result? && reply.intents == []
    case Answered(reply) => reply.Result? && reply.intents != [] ==>
                              reply.outcome.Ran? && !reply.outcome.failed && reply.intents == reply.outcome.intents
    case _ => true
  }

  ghost predicate OneOpen(s: State) {
    forall j, k :: 0 <= j < k < |s.requests| && Open(s.requests[j]) && Open(s.requests[k]) ==>
      s.requests[j].activation != s.requests[k].activation
  }

  ghost predicate RequestsOk(s: State) {
    forall r :: 0 <= r < |s.requests| ==> RequestOk(s, s.requests[r])
  }

  ghost predicate Inv(s: State) {
    PoolOk(s) && MapOk(s) && RequestsOk(s) && OneOpen(s)
  }

  // ------------------------------------------------------------------------ proofs

  /** Only request r moves, and other activations keep their map entries. */
  ghost predicate Moves(s: State, t: State, r: nat)
    requires r < |s.requests|
  {
    && |t.requests| == |s.requests| && t.requests == s.requests[r := t.requests[r]]
    && t.requests[r].activation == s.requests[r].activation
    && (Open(t.requests[r]) ==> Open(s.requests[r]))
    && (forall g :: g != s.requests[r].activation ==> (g in s.workers <==> g in t.workers))
    && (forall g :: g != s.requests[r].activation && g in s.workers ==> t.workers[g] == s.workers[g])
  }

  lemma MovesKeepsRequests(s: State, t: State, r: nat)
    requires RequestsOk(s) && OneOpen(s) && r < |s.requests| && Open(s.requests[r]) && Moves(s, t, r)
    requires RequestOk(t, t.requests[r])
    ensures RequestsOk(t) && OneOpen(t)
  {
  }

  lemma DiscardsElsewhere(s: State, t: State, r: nat, g: Text)
    requires r < |s.requests| && Moves(s, t, r) && g != s.requests[r].activation
    ensures Discards(t, g) <==> Discards(s, g)
  {
    if Discards(s, g) {
      var j :| 0 <= j < |s.requests| && s.requests[j].activation == g && s.requests[j].pc.Discarding?;
      assert t.requests[j] == s.requests[j];
    }
    if Discards(t, g) {
      var j :| 0 <= j < |t.requests| && t.requests[j].activation == g && t.requests[j].pc.Discarding?;
      assert t.requests[j] == s.requests[j];
    }
  }

  /** The only open request of an activation is the one that moves. */
  lemma DiscardsHere(s: State, r: nat)
    requires OneOpen(s) && r < |s.requests| && Open(s.requests[r])
    ensures Discards(s, s.requests[r].activation) <==> s.requests[r].pc.Discarding?
  {
  }

  lemma NoOpenNoDiscard(s: State, g: Text)
    requires forall j :: 0 <= j < |s.requests| && s.requests[j].activation == g ==> !Open(s.requests[j])
    ensures !Discards(s, g)
  {
  }

  /** Neither pool nor map changes, and the request does not stop discarding. */
  lemma PcKeepsInv(s: State, r: nat, pc: Pc)
    requires Inv(s) && r < |s.requests| && Open(s.requests[r])
    requires !s.requests[r].pc.Discarding? || pc.Discarding?
    requires RequestOk(s, s.requests[r].(pc := pc))
    ensures Inv(SetPc(s, r, pc))
  {
    hide AllClean, History;
    var t := SetPc(s, r, pc);
    MovesKeepsRequests(s, t, r);
    DiscardsHere(s, r);
    assert pc.Discarding? ==> t.requests[r].pc.Discarding?;
    forall g | g in t.workers && !Discards(t, g) ensures !Discards(s, g) {
      if g != s.requests[r].activation {
        DiscardsElsewhere(s, t, r, g);
      }
    }
  }

  lemma DropKeepsPool(s: State, g: Text)
    requires PoolOk(s)
    ensures PoolOk(Drop(s, g))
  {
  }

  /** dropSession and the answer, or the next step of init. */
  lemma DropKeepsInv(s: State, r: nat, pc: Pc)
    requires Inv(s) && r < |s.requests| && Open(s.requests[r])
    requires pc == InitSpawning || pc.Answered?
    requires pc.Answered? ==> RequestOk(s, Request(s.requests[r].activation, pc))
    ensures Inv(Drop(SetPc(s, r, pc), s.requests[r].activation))
  {
    hide AllClean, History;
    var g := s.requests[r].activation;
    var t := Drop(SetPc(s, r, pc), g);
    DropKeepsPool(s, g);
    assert PoolOk(t) by {
      assert t.pool == Drop(s, g).pool;
    }
    assert RequestOk(t, t.requests[r]);
    MovesKeepsRequests(s, t, r);
    forall h | h in t.workers
      ensures t.workers[h] < |t.pool| && t.pool[t.workers[h]].activation == h
      ensures !Discards(t, h) ==> AllClean(t.pool[t.workers[h]]) && !t.pool[t.workers[h]].dead
    {
      DiscardsElsewhere(s, t, r, h);
      assert t.pool[t.workers[h]] == s.pool[s.workers[h]];
    }
  }

  /** sessionFor finds a worker whose cells were all clean, or spawns one. */
  lemma FindKeepsInv(s: State, r: nat, spawns: bool, pc: Pc)
    requires Inv(s) && r < |s.requests| && Open(s.requests[r]) && !s.requests[r].pc.Discarding?
    requires var f := Find(s, s.requests[r].activation, spawns);
             f.worker.Some? && (pc == Running(f.worker.value) || pc == Answered(Session(true)))
    ensures var f := Find(s, s.requests[r].activation, spawns);
            && Inv(SetPc(f.state, r, pc))
            && f.worker.value < |f.state.pool| && !f.state.pool[f.worker.value].dead && AllClean(f.state.pool[f.worker.value])
  {
    var g := s.requests[r].activation;
    var f := Find(s, g, spawns);
    DiscardsHere(s, r);
    if f.state == s {
      PcKeepsInv(s, r, pc);
    } else {
      SpawnKeepsInv(s, r, pc);
    }
  }

  function Spawned(s: State, g: Text): State {
    s.(workers := s.workers[g := |s.pool|], pool := s.pool + [Worker(g, false, [])])
  }

  lemma SpawnKeepsPool(s: State, g: Text)
    requires PoolOk(s)
    ensures PoolOk(Spawned(s, g))
  {
  }

  lemma SpawnKeepsMap(s: State, t: State, r: nat)
    requires MapOk(s) && r < |s.requests| && Moves(s, t, r)
    requires var g := s.requests[r].activation;
             && !(g in s.workers && !s.pool[s.workers[g]].dead)
             && t.workers == Spawned(s, g).workers && t.pool == Spawned(s, g).pool
    ensures MapOk(t)
  {
    var g := s.requests[r].activation;
    FreshIsClean(g);
    hide AllClean;
    forall h | h in t.workers && !Discards(t, h) && h != g
      ensures AllClean(t.pool[t.workers[h]]) && !t.pool[t.workers[h]].dead
    {
      DiscardsElsewhere(s, t, r, h);
    }
  }

  lemma SpawnKeepsInv(s: State, r: nat, pc: Pc)
    requires Inv(s) && r < |s.requests| && Open(s.requests[r])
    requires var g := s.requests[r].activation; !(g in s.workers && !s.pool[s.workers[g]].dead)
    requires pc == Running(|s.pool|) || pc == Answered(Session(true))
    ensures Inv(SetPc(Spawned(s, s.requests[r].activation), r, pc))
  {
    hide AllClean, History;
    var g := s.requests[r].activation;
    var t := SetPc(Spawned(s, g), r, pc);
    SpawnKeepsPool(s, g);
    MovesKeepsRequests(s, t, r);
    SpawnKeepsMap(s, t, r);
  }

  lemma FreshHistory(g: Text)
    ensures History(Worker(g, false, []))
  {
  }

  lemma FreshIsClean(g: Text)
    ensures AllClean(Worker(g, false, []))
  {
  }

  lemma EvaluateKeepsHistory(x: Worker, o: Outcome)
    requires History(x) && AllClean(x)
    ensures var y := x.(cells := x.cells + [Cell(x.activation, o)], dead := x.dead || o.Broken?);
            History(y) && (Clean(o) ==> AllClean(y))
  {
  }

  /** One cell on the activation's live worker. */
  lemma EvaluateKeepsInv(s: State, r: nat, w: nat, o: Outcome)
    requires Inv(s) && r < |s.requests| && s.requests[r].pc == Running(w)
    ensures w < |s.pool| && !s.pool[w].dead && AllClean(s.pool[w]) && s.pool[w].activation == s.requests[r].activation
    ensures var pc := if Clean(o) then Answered(ReplyTo(o)) else Discarding(ReplyTo(o));
            Inv(SetPc(Evaluate(s, s.requests[r].activation, w, o), r, pc))
  {
    var g := s.requests[r].activation;
    assert RequestOk(s, s.requests[r]);
    DiscardsHere(s, r);
    EvaluateKeepsHistory(s.pool[w], o);
    hide AllClean, History;
    var t := SetPc(Evaluate(s, g, w, o), r, if Clean(o) then Answered(ReplyTo(o)) else Discarding(ReplyTo(o)));
    MovesKeepsRequests(s, t, r);
    assert !Clean(o) ==> Discards(t, g) by {
      assert t.requests[r].activation == g;
    }
    forall h | h in t.workers && !Discards(t, h)
      ensures AllClean(t.pool[t.workers[h]]) && !t.pool[t.workers[h]].dead
    {
      if h != g {
        DiscardsElsewhere(s, t, r, h);
      }
    }
  }

  lemma AdvanceKeepsInv(s: State, r: nat, spawns: bool, o: Outcome)
    requires Inv(s) && r < |s.requests|
    ensures Inv(Advance(s, r, spawns, o))
  {
    hide Inv, Drop, Find, Evaluate;
    var q := s.requests[r];
    RequestIsOk(s, r);
    match q.pc
    case InitDropping => DropKeepsInv(s, r, InitSpawning);
    case InitSpawning =>
      FindIgnoresRequests(s, r, q.activation, spawns, Answered(Session(true)));
      if Find(s, q.activation, spawns).worker.Some? {
        FindKeepsInv(s, r, spawns, Answered(Session(true)));
      } else {
        PcKeepsInv(s, r, Answered(Unavailable));
      }
    case Closing => DropKeepsInv(s, r, Answered(Session(false)));
    case Finding =>
      if Find(s, q.activation, spawns).worker.Some? {
        FindKeepsInv(s, r, spawns, Running(Find(s, q.activation, spawns).worker.value));
      } else {
        PcKeepsInv(s, r, Answered(Unavailable));
      }
    case Running(w) => EvaluateKeepsInv(s, r, w, o);
    case Discarding(reply) => DropKeepsInv(s, r, Answered(reply));
    case Answered(_) =>
  }

  lemma RequestIsOk(s: State, r: nat)
    requires Inv(s) && r < |s.requests|
    ensures RequestOk(s, s.requests[r])
  {
  }

  lemma FindIgnoresRequests(s: State, r: nat, g: Text, spawns: bool, pc: Pc)
    requires r < |s.requests|
    ensures var f, f' := Find(s, g, spawns), Find(SetPc(s, r, pc), g, spawns);
            && f'.worker == f.worker && |f.state.requests| == |s.requests|
            && (f.worker.Some? ==> f'.state == SetPc(f.state, r, pc))
  {
  }

  lemma ArriveKeepsInv(s: State, g: Text, v: Verb)
    requires Inv(s) && Serial(s, Arrive(g, v))
    ensures Inv(Step(s, Arrive(g, v)))
  {
    hide AllClean, History;
    var t := Step(s, Arrive(g, v));
    forall h ensures Discards(t, h) <==> Discards(s, h) {
      if Discards(s, h) {
        var j :| 0 <= j < |s.requests| && s.requests[j].activation == h && s.requests[j].pc.Discarding?;
        assert t.requests[j] == s.requests[j];
      }
    }
    forall j | 0 <= j < |t.requests| ensures RequestOk(t, t.requests[j]) {
      if j < |s.requests| {
        assert RequestOk(s, s.requests[j]);
      }
    }
  }

  lemma {:induction false} SerialKeepsInv(ls: seq<Label>)
    requires SerialRun(ls)
    ensures Inv(Exec(Init(), ls))
    decreases |ls|
  {
    hide Advance;
    if ls != [] {
      var n := |ls| - 1;
      var s := Exec(Init(), ls[..n]);
      SerialKeepsInv(ls[..n]);
      match ls[n]
      case Arrive(g, v) => ArriveKeepsInv(s, g, v);
      case Next(r, spawns, o) =>
        if r < |s.requests| {
          AdvanceKeepsInv(s, r, spawns, o);
        }
    }
  }

  // --------------------------------------------------------------------- theorems

  /** Session reuse is clean: in every interleaving of activations whose own
      requests are serial, each cell ran on a worker of its own activation whose
      earlier cells all succeeded or were typed as preserving. */
  lemma ReuseIsClean(ls: seq<Label>, w: nat, k: nat)
    requires SerialRun(ls) && w < |Exec(Init(), ls).pool| && k < |Exec(Init(), ls).pool[w].cells|
    ensures var x := Exec(Init(), ls).pool[w];
            && x.cells[k].activation == x.activation
            && forall j :: 0 <= j < k ==> x.cells[j].outcome.Ran? && (!x.cells[j].outcome.failed || x.cells[j].outcome.preserving)
  {
    hide Exec, MapOk, RequestsOk, OneOpen;
    SerialKeepsInv(ls);
    assert History(Exec(Init(), ls).pool[w]);
  }

  /** A request that is about to run its cell holds a live worker of its own
      activation, all of whose cells were clean. */
  lemma DeadIsNeverReused(ls: seq<Label>, r: nat)
    requires SerialRun(ls) && r < |Exec(Init(), ls).requests| && Exec(Init(), ls).requests[r].pc.Running?
    ensures var s := Exec(Init(), ls); var w := s.requests[r].pc.w;
            && w < |s.pool| && !s.pool[w].dead && s.pool[w].activation == s.requests[r].activation
            && forall c :: c in s.pool[w].cells ==> c.outcome.Ran? && (!c.outcome.failed || c.outcome.preserving)
  {
    hide Exec, Inv, Evaluate;
    SerialKeepsInv(ls);
    var s := Exec(Init(), ls);
    EvaluateKeepsInv(s, r, s.requests[r].pc.w, Broken);
  }

  ghost predicate RepliesOk(s: State) {
    forall r :: 0 <= r < |s.requests| ==> ReplyOk(s.requests[r].pc)
  }

  lemma AdvanceReplies(s: State, r: nat, spawns: bool, o: Outcome)
    requires r < |s.requests| && ReplyOk(s.requests[r].pc)
    ensures var t := Advance(s, r, spawns, o);
            |t.requests| == |s.requests| && t.requests == s.requests[r := t.requests[r]] && ReplyOk(t.requests[r].pc)
  {
  }

  lemma {:induction false} RunReplies(ls: seq<Label>)
    ensures RepliesOk(Exec(Init(), ls))
    decreases |ls|
  {
    hide Advance, ReplyOk;
    if ls != [] {
      var n := |ls| - 1;
      var s := Exec(Init(), ls[..n]);
      RunReplies(ls[..n]);
      match ls[n]
      case Arrive(_, v) => FirstIsOk(v);
      case Next(r, spawns, o) =>
        if r < |s.requests| {
          AdvanceReplies(s, r, spawns, o);
        }
    }
  }

  lemma FirstIsOk(v: Verb)
    ensures ReplyOk(First(v))
  {
  }

  /** Intents are returned only from cells without error, and unchanged, however
      requests interleave. */
  lemma IntentsOnlyFromSuccess(ls: seq<Label>, r: nat)
    requires r < |Exec(Init(), ls).requests|
    requires var q := Exec(Init(), ls).requests[r]; q.pc.Answered? && q.pc.reply.Result? && q.pc.reply.intents != []
    ensures var o := Exec(Init(), ls).requests[r].pc.reply;
            o.outcome.Ran? && !o.outcome.failed && o.intents == o.outcome.intents
  {
    hide Exec;
    RunReplies(ls);
    assert ReplyOk(Exec(Init(), ls).requests[r].pc);
  }

  /** At rest an activation's worker is live and clean, and every other worker is dead. */
  lemma AtRestClean(ls: seq<Label>, g: Text)
    requires SerialRun(ls) && g in Exec(Init(), ls).workers
    requires forall r :: 0 <= r < |Exec(Init(), ls).requests| && Exec(Init(), ls).requests[r].activation == g ==>
               !Open(Exec(Init(), ls).requests[r])
    ensures var s := Exec(Init(), ls);
            && s.workers[g] < |s.pool| && !s.pool[s.workers[g]].dead
            && (forall c :: c in s.pool[s.workers[g]].cells ==> c.outcome.Ran? && (!c.outcome.failed || c.outcome.preserving))
            && forall w :: 0 <= w < |s.pool| && s.pool[w].activation == g && w != s.workers[g] ==> s.pool[w].dead
  {
    hide Exec;
    SerialKeepsInv(ls);
    NoOpenNoDiscard(Exec(Init(), ls), g);
    assert AllClean(Exec(Init(), ls).pool[Exec(Init(), ls).workers[g]]);
  }

  // ------------------------------------------------------ answers, init and close

  /** The reply is settled: given, or given once the worker is discarded. */
  predicate Settled(pc: Pc, reply: Reply) {
    pc == Answered(reply) || pc == Discarding(reply)
  }

  /** In step n request r ran its cell on a live worker, with outcome o. */
  ghost predicate RanCell(ls: seq<Label>, n: nat, r: nat, o: Outcome) {
    && n < |ls| && ls[n].Next? && ls[n].r == r && ls[n].o == o
    && var s := Exec(Init(), ls[..n]);
       && r < |s.requests| && s.requests[r].pc.Running?
       && s.requests[r].pc.w < |s.pool| && !s.pool[s.requests[r].pc.w].dead
  }

  lemma StepSettled(s: State, l: Label, r: nat, reply: Reply)
    requires r < |s.requests| && Settled(s.requests[r].pc, reply)
    ensures var t := Step(s, l); r < |t.requests| && Settled(t.requests[r].pc, reply)
  {
  }

  /** Running the cell settles its reply: a cell without error is answered with its
      own intents, any other with none. The answer comes at once if the cell
      succeeded or failed preserving; otherwise the worker is discarded first, and
      a broken transport has killed it already. */
  lemma CellSettles(s: State, l: Label, r: nat)
    requires r < |s.requests| && s.requests[r].pc.Running? && l.Next? && l.r == r
    requires s.requests[r].pc.w < |s.pool| && !s.pool[s.requests[r].pc.w].dead
    ensures var t := Step(s, l); var g := s.requests[r].activation; var w := s.requests[r].pc.w;
            && r < |t.requests| && w < |t.pool| && t.pool[w].cells == s.pool[w].cells + [Cell(g, l.o)]
            && (t.requests[r].pc.Answered? <==> l.o.Ran? && (!l.o.failed || l.o.preserving))
            && (t.pool[w].dead <==> l.o.Broken?)
            && Settled(t.requests[r].pc, Result(l.o, if l.o.Ran? && !l.o.failed then l.o.intents else []))
  {
  }

  /** Over every run a cell is answered as it ended: one that ran without error
      with its own intents, a failed or broken one with none. */
  lemma {:induction false} CellIsAnswered(ls: seq<Label>, n: nat, r: nat, o: Outcome)
    requires RanCell(ls, n, r, o)
    ensures var t := Exec(Init(), ls);
            && r < |t.requests|
            && (t.requests[r].pc.Answered? ==>
                  t.requests[r].pc.reply == Result(o, if o.Ran? && !o.failed then o.intents else []))
            && Settled(t.requests[r].pc, Result(o, if o.Ran? && !o.failed then o.intents else []))
    decreases |ls|
  {
    hide Step;
    var m := |ls| - 1;
    if n == m {
      CellSettles(Exec(Init(), ls[..m]), ls[m], r);
    } else {
      assert ls[..m][..n] == ls[..n];
      CellIsAnswered(ls[..m], n, r, o);
      StepSettled(Exec(Init(), ls[..m]), ls[m], r, Result(o, if o.Ran? && !o.failed then o.intents else []));
    }
  }

  /** Only running its cell settles a typed reply. */
  lemma OwnUnsettled(s: State, r: nat, spawns: bool, o: Outcome, reply: Reply)
    requires r < |s.requests|
    requires var t := Advance(s, r, spawns, o); r < |t.requests| && Settled(t.requests[r].pc, reply)
    requires reply.Result? && reply.outcome.Ran?
    ensures || Settled(s.requests[r].pc, reply)
            || (o == reply.outcome && s.requests[r].pc.Running?
                && s.requests[r].pc.w < |s.pool| && !s.pool[s.requests[r].pc.w].dead)
  {
  }

  lemma OtherSettled(s: State, j: nat, spawns: bool, o: Outcome, r: nat)
    requires j < |s.requests| && j != r
    ensures var t := Advance(s, j, spawns, o);
            |t.requests| == |s.requests| && (r < |s.requests| ==> t.requests[r] == s.requests[r])
  {
  }

  lemma StepUnsettled(s: State, l: Label, r: nat, reply: Reply)
    requires var t := Step(s, l); r < |t.requests| && Settled(t.requests[r].pc, reply)
    requires reply.Result? && reply.outcome.Ran?
    ensures r < |s.requests|
    ensures || Settled(s.requests[r].pc, reply)
            || (l.Next? && l.r == r && l.o == reply.outcome && s.requests[r].pc.Running?
                && s.requests[r].pc.w < |s.pool| && !s.pool[s.requests[r].pc.w].dead)
  {
    hide Advance;
    if l.Next? && l.r < |s.requests| {
      if l.r == r {
        OwnUnsettled(s, r, l.spawns, l.o, reply);
      } else {
        OtherSettled(s, l.r, l.spawns, l.o, r);
      }
    }
  }

  /** Conversely, every typed result was that of a cell the request ran itself. */
  lemma {:induction false} AnswerHasCell(ls: seq<Label>, r: nat, reply: Reply) returns (n: nat)
    requires r < |Exec(Init(), ls).requests| && Settled(Exec(Init(), ls).requests[r].pc, reply)
    requires reply.Result? && reply.outcome.Ran?
    ensures RanCell(ls, n, r, reply.outcome)
    decreases |ls|
  {
    hide Step;
    var m := |ls| - 1;
    var s := Exec(Init(), ls[..m]);
    StepUnsettled(s, ls[m], r, reply);
    if Settled(s.requests[r].pc, reply) {
      n := AnswerHasCell(ls[..m], r, reply);
      assert ls[..m][..n] == ls[..n];
    } else {
      n := m;
    }
  }

  /** init_session starts over: it answers with a session exactly if the spawn
      works, on a worker that has run no cell, and every earlier worker of the
      activation is dead. */
  lemma InitStartsFresh(ls: seq<Label>, r: nat, spawns: bool, o: Outcome)
    requires SerialRun(ls) && r < |Exec(Init(), ls).requests| && Exec(Init(), ls).requests[r].pc == InitSpawning
    ensures var s := Exec(Init(), ls); var t := Step(s, Next(r, spawns, o)); var g := s.requests[r].activation;
            && r < |t.requests| && t.requests[r].pc == Answered(if spawns then Session(true) else Unavailable)
            && (forall w :: 0 <= w < |s.pool| && s.pool[w].activation == g ==> s.pool[w].dead && t.pool[w] == s.pool[w])
            && (spawns ==> g in t.workers && t.workers[g] == |s.pool| < |t.pool| && t.pool[|s.pool|] == Worker(g, false, []))
            && (!spawns ==> g !in t.workers && t.pool == s.pool)
  {
    hide Exec, AllClean, History, OneOpen;
    SerialKeepsInv(ls);
    RequestIsOk(Exec(Init(), ls), r);
  }

  /** close_session leaves the activation with no live worker. */
  lemma CloseLeavesNothing(ls: seq<Label>, r: nat, spawns: bool, o: Outcome)
    requires SerialRun(ls) && r < |Exec(Init(), ls).requests| && Exec(Init(), ls).requests[r].pc == Closing
    ensures var s := Exec(Init(), ls); var t := Step(s, Next(r, spawns, o)); var g := s.requests[r].activation;
            && r < |t.requests| && t.requests[r].pc == Answered(Session(false)) && g !in t.workers && |t.pool| == |s.pool|
            && (forall w :: 0 <= w < |t.pool| && t.pool[w].activation == g ==> t.pool[w].dead)
            && (forall w :: 0 <= w < |t.pool| && s.pool[w].activation != g ==> t.pool[w] == s.pool[w])
  {
    hide Exec, AllClean, History, OneOpen;
    SerialKeepsInv(ls);
  }

  // -------------------------------------------------- concurrent requests of one

  lemma ExecSnoc(s: State, ls: seq<Label>, l: Label)
    ensures Exec(s, ls + [l]) == Step(Exec(s, ls), l)
  {
  }

  const BAD := Ran(true, false, [])
  const GOOD := Ran(false, false, [])

  /** Two requests of g, the first holding a fresh worker. */
  function Overlapping(g: Text): State {
    State(map[g := 0], [Worker(g, false, [])], [Request(g, Running(0)), Request(g, Finding)])
  }

  lemma OverlapStarts(g: Text)
    ensures Step(Step(Step(Init(), Arrive(g, EvalCell)), Arrive(g, EvalCell)), Next(0, true, GOOD)) == Overlapping(g)
  {
  }

  lemma OverlapFails(g: Text)
    ensures var s := Overlapping(g); var t := Step(s, Next(0, true, BAD));
            && t == s.(pool := [Worker(g, false, [Cell(g, BAD)])],
                       requests := [Request(g, Discarding(Result(BAD, []))), Request(g, Finding)])
            && Step(t, Next(1, true, GOOD)) == t.(requests := [t.requests[0], Request(g, Running(0))])
  {
    var s := Overlapping(g);
    assert [] + [Cell(g, BAD)] == [Cell(g, BAD)];
    assert Evaluate(s, g, 0, BAD).pool == [Worker(g, false, [Cell(g, BAD)])];
  }

  lemma OverlapReuses(g: Text, s: State)
    requires |s.pool| == 1 && s.pool[0] == Worker(g, false, [Cell(g, BAD)])
    requires |s.requests| == 2 && s.requests[1] == Request(g, Running(0))
    ensures Step(s, Next(1, true, GOOD)).pool == [Worker(g, false, [Cell(g, BAD), Cell(g, GOOD)])]
  {
    assert [Cell(g, BAD)] + [Cell(g, GOOD)] == [Cell(g, BAD), Cell(g, GOOD)];
  }

  /** Two overlapping requests of one activation break it: the second finds the
      worker before the first has discarded it, and its cell runs after an unsafe
      failure. */
  lemma ConcurrentReuseIsUnsafe(g: Text) returns (ls: seq<Label>)
    ensures var s := Exec(Init(), ls);
            s.pool == [Worker(g, false, [Cell(g, BAD), Cell(g, GOOD)])] && !Clean(BAD)
  {
    hide Step, Exec;
    OverlapStarts(g);
    OverlapFails(g);
    var arrive, find, fail, next := Arrive(g, EvalCell), Next(0, true, GOOD), Next(0, true, BAD), Next(1, true, GOOD);
    ExecNone(Init());
    ExecSnoc(Init(), [], arrive);
    ExecSnoc(Init(), [] + [arrive], arrive);
    ExecSnoc(Init(), [] + [arrive] + [arrive], find);
    ExecSnoc(Init(), [] + [arrive] + [arrive] + [find], fail);
    ExecSnoc(Init(), [] + [arrive] + [arrive] + [find] + [fail], next);
    ExecSnoc(Init(), [] + [arrive] + [arrive] + [find] + [fail] + [next], next);
    ls := [] + [arrive] + [arrive] + [find] + [fail] + [next] + [next];
    OverlapReuses(g, Step(Step(Overlapping(g), fail), next));
  }

  lemma ExecNone(s: State)
    ensures Exec(s, []) == s
  {
  }

  // ------------------------------------------------- which overlaps are unsafe

  /** Some worker of g ran a cell after an unclean one. */
  ghost predicate Soiled(s: State, g: Text) {
    exists w, k :: 0 <= w < |s.pool| && s.pool[w].activation == g && UncleanBefore(s.pool[w], k)
  }

  predicate UncleanBefore(x: Worker, k: int) {
    0 <= k < |x.cells| - 1 && !Clean(x.cells[k].outcome)
  }

  predicate MappedLive(s: State, g: Text) {
    g in s.workers && s.workers[g] < |s.pool| && !s.pool[s.workers[g]].dead
  }

  /** The open request has a cell to run, or is still to discard a live worker. */
  predicate Exposed(s: State, r: nat)
    requires r < |s.requests|
  {
    var q := s.requests[r];
    q.pc.Finding? || q.pc.Running? || (q.pc.Discarding? && MappedLive(s, q.activation))
  }

  ghost predicate OnlyNexts(ms: seq<Label>) {
    forall l :: l in ms ==> l.Next?
  }

  // The harmless half.

  /** Entries and running requests point at workers of their own activation. */
  ghost predicate Shaped(s: State) {
    && (forall h :: h in s.workers ==> s.workers[h] < |s.pool| && s.pool[s.workers[h]].activation == h)
    && (forall j :: 0 <= j < |s.requests| && s.requests[j].pc.Running? ==>
          s.requests[j].pc.w < |s.pool| && s.pool[s.requests[j].pc.w].activation == s.requests[j].activation)
  }

  ghost predicate Unsoiled(s: State, g: Text) {
    forall w :: 0 <= w < |s.pool| && s.pool[w].activation == g ==> Tidy(s.pool[w])
  }

  ghost predicate Tidy(x: Worker) {
    forall k :: 0 <= k < |x.cells| - 1 ==> Clean(x.cells[k].outcome)
  }

  /** What request k would run its cell on is clean. */
  ghost predicate Safe(s: State, q: Request) {
    match q.pc
    case Finding => MappedLive(s, q.activation) ==> AllClean(s.pool[s.workers[q.activation]])
    case Running(w) => w < |s.pool| && (!s.pool[w].dead ==> AllClean(s.pool[w]))
    case _ => true
  }

  /** Of g's requests only k may still run a cell. */
  ghost predicate Lone(s: State, g: Text, k: nat) {
    && k < |s.requests| && s.requests[k].activation == g && Safe(s, s.requests[k])
    && forall j :: 0 <= j < |s.requests| && j != k && s.requests[j].activation == g ==>
         !s.requests[j].pc.Finding? && !s.requests[j].pc.Running?
  }

  ghost predicate HarmlessInv(s: State, g: Text, k: nat) {
    Shaped(s) && Unsoiled(s, g) && Lone(s, g, k)
  }

  /** What a step of a request of another activation leaves of g. */
  ghost predicate SameFor(s: State, t: State, g: Text) {
    && (g in t.workers <==> g in s.workers) && (g in s.workers ==> t.workers[g] == s.workers[g])
    && |s.pool| <= |t.pool|
    && (forall w :: 0 <= w < |s.pool| && s.pool[w].activation == g ==> t.pool[w] == s.pool[w])
    && (forall w :: 0 <= w < |s.pool| ==> t.pool[w].activation == s.pool[w].activation)
    && (forall w :: |s.pool| <= w < |t.pool| ==> t.pool[w].activation != g)
  }

  ghost predicate SameCore(s: State, t: State) {
    t.workers == s.workers && t.pool == s.pool
  }

  lemma DropIgnoresRequests(s: State, r: nat, g: Text, pc: Pc)
    requires r < |s.requests|
    ensures SameCore(Drop(s, g), Drop(SetPc(s, r, pc), g)) && Drop(SetPc(s, r, pc), g).requests == SetPc(s, r, pc).requests
  {
  }

  /** A step is at most one drop, one lookup or one cell of its activation. */
  lemma AdvanceCore(s: State, j: nat, spawns: bool, o: Outcome)
    requires j < |s.requests|
    ensures var t := Advance(s, j, spawns, o);
            && |t.requests| == |s.requests| && t.requests == s.requests[j := t.requests[j]]
            && t.requests[j].activation == s.requests[j].activation
    ensures var t := Advance(s, j, spawns, o); var q := s.requests[j]; var f := Find(s, q.activation, spawns);
            && (|| SameCore(s, t) || SameCore(Drop(s, q.activation), t) || SameCore(f.state, t)
                || (q.pc.Running? && q.pc.w < |s.pool| && SameCore(Evaluate(s, q.activation, q.pc.w, o), t)))
            && (t.requests[j].pc.Running? ==> f.worker == Some(t.requests[j].pc.w) && SameCore(f.state, t))
  {
    var q := s.requests[j];
    FindIgnoresRequests(s, j, q.activation, spawns, Answered(Session(true)));
    FindKeepsRequests(s, q.activation, spawns);
    DropIgnoresRequests(s, j, q.activation, InitSpawning);
    DropIgnoresRequests(s, j, q.activation, Answered(Session(false)));
    if q.pc.Discarding? {
      DropIgnoresRequests(s, j, q.activation, Answered(q.pc.reply));
    }
    hide Drop, Find;
  }

  lemma FindKeepsRequests(s: State, g: Text, spawns: bool)
    ensures Find(s, g, spawns).state.requests == s.requests
  {
  }

  /** The map entries alone. */
  ghost predicate MapShaped(s: State) {
    forall h :: h in s.workers ==> s.workers[h] < |s.pool| && s.pool[s.workers[h]].activation == h
  }

  /** Workers are only added, and keep their activation. */
  ghost predicate PoolGrows(s: State, t: State) {
    |s.pool| <= |t.pool| && forall w :: 0 <= w < |s.pool| ==> t.pool[w].activation == s.pool[w].activation
  }

  lemma DropShape(s: State, h: Text, g: Text)
    requires MapShaped(s)
    ensures MapShaped(Drop(s, h)) && PoolGrows(s, Drop(s, h)) && (g != h ==> SameFor(s, Drop(s, h), g))
  {
  }

  lemma FindShape(s: State, h: Text, spawns: bool, g: Text)
    requires MapShaped(s)
    ensures var f := Find(s, h, spawns);
            && MapShaped(f.state) && PoolGrows(s, f.state) && (g != h ==> SameFor(s, f.state, g))
            && (f.worker.Some? ==> f.worker.value < |f.state.pool| && f.state.pool[f.worker.value].activation == h)
  {
  }

  lemma EvaluateShape(s: State, h: Text, w: nat, o: Outcome, g: Text)
    requires MapShaped(s) && w < |s.pool| && s.pool[w].activation == h
    ensures var t := Evaluate(s, h, w, o); MapShaped(t) && PoolGrows(s, t) && (g != h ==> SameFor(s, t, g))
  {
  }

  lemma CoreShape(s: State, t: State, t': State, g: Text)
    ensures SameCore(t, t') && MapShaped(t) ==> MapShaped(t')
    ensures SameCore(t, t') && PoolGrows(s, t) ==> PoolGrows(s, t')
    ensures SameCore(t, t') && SameFor(s, t, g) ==> SameFor(s, t', g)
  {
  }

  lemma AdvanceShape(s: State, j: nat, spawns: bool, o: Outcome, g: Text)
    requires Shaped(s) && j < |s.requests|
    ensures var t := Advance(s, j, spawns, o);
            MapShaped(t) && PoolGrows(s, t) && (s.requests[j].activation != g ==> SameFor(s, t, g))
  {
    hide Advance, Drop, Find, Evaluate, SameCore, SameFor, PoolGrows;
    var t := Advance(s, j, spawns, o);
    var q := s.requests[j];
    AdvanceCore(s, j, spawns, o);
    StaysShape(s, g);
    CoreShape(s, s, t, g);
    DropShape(s, q.activation, g);
    CoreShape(s, Drop(s, q.activation), t, g);
    FindShape(s, q.activation, spawns, g);
    CoreShape(s, Find(s, q.activation, spawns).state, t, g);
    if q.pc.Running? {
      EvaluateShape(s, q.activation, q.pc.w, o, g);
      CoreShape(s, Evaluate(s, q.activation, q.pc.w, o), t, g);
    }
  }

  lemma StaysShape(s: State, g: Text)
    ensures PoolGrows(s, s) && SameFor(s, s, g)
  {
  }

  lemma AdvanceKeepsShape(s: State, j: nat, spawns: bool, o: Outcome)
    requires Shaped(s) && j < |s.requests|
    ensures Shaped(Advance(s, j, spawns, o))
    ensures var t := Advance(s, j, spawns, o);
            && |t.requests| == |s.requests| && t.requests == s.requests[j := t.requests[j]]
            && t.requests[j].activation == s.requests[j].activation
  {
    hide Advance, Drop, Find, Evaluate, SameFor;
    var t := Advance(s, j, spawns, o);
    AdvanceCore(s, j, spawns, o);
    AdvanceShape(s, j, spawns, o, []);
    FindShape(s, s.requests[j].activation, spawns, []);
  }

  lemma AdvanceElsewhere(s: State, j: nat, spawns: bool, o: Outcome, g: Text)
    requires Shaped(s) && j < |s.requests| && s.requests[j].activation != g
    ensures SameFor(s, Advance(s, j, spawns, o), g)
  {
    hide Advance, SameFor;
    AdvanceShape(s, j, spawns, o, g);
  }

  lemma ElsewhereIsHarmless(s: State, j: nat, spawns: bool, o: Outcome, g: Text, k: nat)
    requires HarmlessInv(s, g, k) && j < |s.requests| && s.requests[j].activation != g
    ensures HarmlessInv(Advance(s, j, spawns, o), g, k)
  {
    hide Advance, AllClean, Tidy;
    AdvanceKeepsShape(s, j, spawns, o);
    AdvanceElsewhere(s, j, spawns, o, g);
  }

  lemma TidyAfter(x: Worker, c: Cell)
    requires AllClean(x)
    ensures Tidy(x.(cells := x.cells + [c]))
  {
  }

  lemma LoneKeepsTidy(s: State, spawns: bool, o: Outcome, g: Text, k: nat)
    requires HarmlessInv(s, g, k)
    ensures Unsoiled(Advance(s, k, spawns, o), g)
  {
    hide AllClean, Clean;
    var t := Advance(s, k, spawns, o);
    var pc := s.requests[k].pc;
    if pc.Running? && !s.pool[pc.w].dead {
      TidyAfter(s.pool[pc.w], Cell(g, o));
      assert Tidy(t.pool[pc.w]);
    }
  }

  /** Request k itself: it finds a clean worker and runs at most one cell on it. */
  lemma LoneMoves(s: State, spawns: bool, o: Outcome, g: Text, k: nat)
    requires HarmlessInv(s, g, k)
    ensures HarmlessInv(Advance(s, k, spawns, o), g, k)
  {
    hide Shaped, AllClean, Unsoiled, Clean;
    AdvanceKeepsShape(s, k, spawns, o);
    FreshIsClean(g);
    LoneKeepsTidy(s, spawns, o, g, k);
  }

  /** The other open request of g only drops and spawns. */
  lemma OtherMoves(s: State, j: nat, spawns: bool, o: Outcome, g: Text, k: nat)
    requires HarmlessInv(s, g, k) && j < |s.requests| && j != k && s.requests[j].activation == g
    ensures HarmlessInv(Advance(s, j, spawns, o), g, k)
  {
    FreshIsClean(g);
    FreshIsTidy(g);
    hide AllClean, Tidy, Shaped;
    AdvanceKeepsShape(s, j, spawns, o);
    OtherKeepsCells(s, j, spawns, o);
    var t := Advance(s, j, spawns, o);
    forall w | 0 <= w < |t.pool| && t.pool[w].activation == g ensures Tidy(t.pool[w]) {
      if w < |s.pool| {
        DeadIsTidy(s.pool[w]);
      }
    }
  }

  lemma FreshIsTidy(g: Text)
    ensures Tidy(Worker(g, false, []))
  {
  }

  /** Without a cell of its own a request leaves every worker's cells alone. */
  lemma OtherKeepsCells(s: State, j: nat, spawns: bool, o: Outcome)
    requires j < |s.requests| && !s.requests[j].pc.Running?
    ensures var t := Advance(s, j, spawns, o);
            && |s.pool| <= |t.pool|
            && (forall w :: 0 <= w < |s.pool| ==> t.pool[w] == s.pool[w] || t.pool[w] == s.pool[w].(dead := true))
            && (forall w :: |s.pool| <= w < |t.pool| ==> t.pool[w] == Worker(s.requests[j].activation, false, []))
  {
  }

  lemma DeadIsTidy(x: Worker)
    ensures Tidy(x) ==> Tidy(x.(dead := true))
    ensures AllClean(x) ==> AllClean(x.(dead := true))
  {
  }

  lemma {:induction false} HarmlessRun(s: State, ms: seq<Label>, g: Text, k: nat)
    requires HarmlessInv(s, g, k) && OnlyNexts(ms)
    ensures HarmlessInv(Exec(s, ms), g, k)
    decreases |ms|
  {
    hide HarmlessInv, Advance;
    if ms != [] {
      var n := |ms| - 1;
      assert ms[n] in ms && forall l :: l in ms[..n] ==> l in ms;
      HarmlessRun(s, ms[..n], g, k);
      var t := Exec(s, ms[..n]);
      var j := ms[n].r;
      if j < |t.requests| {
        if t.requests[j].activation != g {
          ElsewhereIsHarmless(t, j, ms[n].spawns, ms[n].o, g, k);
        } else if j == k {
          LoneMoves(t, ms[n].spawns, ms[n].o, g, k);
        } else {
          OtherMoves(t, j, ms[n].spawns, ms[n].o, g, k);
        }
      }
    }
  }

  lemma UnsoiledIsClean(s: State, g: Text)
    ensures Unsoiled(s, g) <==> !Soiled(s, g)
  {
    if !Soiled(s, g) {
      forall w | 0 <= w < |s.pool| && s.pool[w].activation == g ensures Tidy(s.pool[w]) {
        forall k | 0 <= k < |s.pool[w].cells| - 1 ensures Clean(s.pool[w].cells[k].outcome) {
          assert !UncleanBefore(s.pool[w], k);
        }
      }
    }
  }

  // The unsafe half.

  /** The last cell of the worker was unclean. */
  predicate Poisoned(x: Worker) {
    |x.cells| > 0 && !Clean(x.cells[|x.cells| - 1].outcome)
  }

  /** A live worker that a request is about to discard is poisoned. */
  ghost predicate DiscardOk(s: State, q: Request) {
    q.pc.Discarding? && MappedLive(s, q.activation) ==> Poisoned(s.pool[s.workers[q.activation]])
  }

  ghost predicate DiscardsOk(s: State) {
    forall j :: 0 <= j < |s.requests| ==> DiscardOk(s, s.requests[j])
  }

  lemma InvIsShaped(s: State)
    requires Inv(s)
    ensures Shaped(s)
  {
    forall j | 0 <= j < |s.requests| && s.requests[j].pc.Running?
      ensures s.requests[j].pc.w < |s.pool| && s.pool[s.requests[j].pc.w].activation == s.requests[j].activation
    {
      assert RequestOk(s, s.requests[j]);
    }
  }

  lemma EvaluateDiscards(s: State, j: nat, w: nat, spawns: bool, o: Outcome)
    requires Inv(s) && j < |s.requests| && s.requests[j].pc == Running(w)
    ensures var t := Advance(s, j, spawns, o); j < |t.requests| && DiscardOk(t, t.requests[j])
  {
    hide Inv;
    EvaluateKeepsInv(s, j, w, o);
    RequestIsOk(s, j);
    var g := s.requests[j].activation;
    assert g in s.workers && s.workers[g] == w;
    var t := Advance(s, j, spawns, o);
    assert t.workers == s.workers && t.pool[w].cells == s.pool[w].cells + [Cell(g, o)];
  }

  lemma OwnDiscards(s: State, j: nat, spawns: bool, o: Outcome)
    requires j < |s.requests| && !s.requests[j].pc.Running?
    ensures var t := Advance(s, j, spawns, o); j < |t.requests| && !t.requests[j].pc.Discarding?
  {
  }

  lemma StepDiscards(s: State, j: nat, spawns: bool, o: Outcome, i: nat)
    requires Inv(s) && DiscardsOk(s) && j < |s.requests| && i < |s.requests|
    ensures var t := Advance(s, j, spawns, o); i < |t.requests| && DiscardOk(t, t.requests[i])
  {
    InvIsShaped(s);
    AdvanceKeepsShape(s, j, spawns, o);
    assert i != j && Open(s.requests[i]) && Open(s.requests[j]) ==> s.requests[i].activation != s.requests[j].activation;
    assert DiscardOk(s, s.requests[i]);
    hide Inv, Shaped, Poisoned;
    if i == j {
      if s.requests[j].pc.Running? {
        EvaluateDiscards(s, j, s.requests[j].pc.w, spawns, o);
      } else {
        OwnDiscards(s, j, spawns, o);
      }
    } else if s.requests[i].pc.Discarding? {
      if Open(s.requests[j]) {
        AdvanceElsewhere(s, j, spawns, o, s.requests[i].activation);
        ElsewhereDiscards(s, Advance(s, j, spawns, o), s.requests[i]);
      }
    }
  }

  lemma ElsewhereDiscards(s: State, t: State, q: Request)
    requires SameFor(s, t, q.activation) && DiscardOk(s, q) && MapShaped(s)
    ensures DiscardOk(t, q)
  {
  }

  lemma {:induction false} SerialDiscards(ls: seq<Label>)
    requires SerialRun(ls)
    ensures DiscardsOk(Exec(Init(), ls))
    decreases |ls|
  {
    hide Advance, Inv, DiscardOk;
    if ls != [] {
      var n := |ls| - 1;
      var s := Exec(Init(), ls[..n]);
      SerialDiscards(ls[..n]);
      SerialKeepsInv(ls[..n]);
      match ls[n]
      case Arrive(g, v) => ArriveDiscards(s, g, v);
      case Next(r, spawns, o) =>
        if r < |s.requests| {
          var t := Advance(s, r, spawns, o);
          StepDiscards(s, r, spawns, o, r);
          AdvanceCore(s, r, spawns, o);
          forall i | 0 <= i < |t.requests| ensures DiscardOk(t, t.requests[i]) {
            StepDiscards(s, r, spawns, o, i);
          }
        }
    }
  }

  lemma ArriveDiscards(s: State, g: Text, v: Verb)
    requires DiscardsOk(s)
    ensures DiscardsOk(Step(s, Arrive(g, v)))
  {
    var t := Step(s, Arrive(g, v));
    forall i | 0 <= i < |t.requests| ensures DiscardOk(t, t.requests[i]) {
      if i < |s.requests| {
        assert DiscardOk(s, s.requests[i]);
      }
    }
  }

  lemma SoiledBy(s: State, g: Text, w: nat, k: nat)
    requires w < |s.pool| && s.pool[w].activation == g && UncleanBefore(s.pool[w], k)
    ensures Soiled(s, g)
  {
  }

  /** A cell on a live worker whose last cell was unclean. */
  lemma CellSoils(s: State, k: nat, w: nat)
    requires k < |s.requests| && s.requests[k].pc == Running(w) && w < |s.pool| && !s.pool[w].dead
    requires s.pool[w].activation == s.requests[k].activation && Poisoned(s.pool[w])
    ensures Soiled(Step(s, Next(k, true, GOOD)), s.requests[k].activation)
  {
    var t := Step(s, Next(k, true, GOOD));
    assert t.pool[w].cells == s.pool[w].cells + [Cell(s.requests[k].activation, GOOD)];
    SoiledBy(t, s.requests[k].activation, w, |s.pool[w].cells| - 1);
  }

  /** An unclean cell poisons the worker without killing it. */
  lemma BadPoisons(s: State, j: nat, w: nat)
    requires j < |s.requests| && s.requests[j].pc == Running(w) && w < |s.pool| && !s.pool[w].dead
    ensures var t := Step(s, Next(j, true, BAD));
            && w < |t.pool| && !t.pool[w].dead && t.pool[w].activation == s.pool[w].activation && Poisoned(t.pool[w])
            && |t.requests| == |s.requests| && forall i :: 0 <= i < |s.requests| && i != j ==> t.requests[i] == s.requests[i]
  {
    var t := Step(s, Next(j, true, BAD));
    assert t.pool[w].cells == s.pool[w].cells + [Cell(s.requests[j].activation, BAD)];
  }

  /** A request finds the live worker of its activation. */
  lemma FindsLive(s: State, k: nat)
    requires k < |s.requests| && s.requests[k].pc == Finding && MappedLive(s, s.requests[k].activation)
    ensures Step(s, Next(k, true, GOOD)) == SetPc(s, k, Running(s.workers[s.requests[k].activation]))
  {
  }

  /** Looking for a worker with spawning allowed always leaves a live one. */
  lemma FindsSome(s: State, j: nat)
    requires j < |s.requests| && s.requests[j].pc == Finding && MapShaped(s)
    ensures var t := Step(s, Next(j, true, GOOD)); var g := s.requests[j].activation;
            && MappedLive(t, g) && t.pool[t.workers[g]].activation == g
            && t.requests == s.requests[j := Request(g, Running(t.workers[g]))]
  {
  }

  /** Two requests of one activation hold the same live worker. */
  lemma BothRunningSoils(s: State, j: nat, k: nat, w: nat) returns (ms: seq<Label>)
    requires j < |s.requests| && k < |s.requests| && j != k && w < |s.pool| && !s.pool[w].dead
    requires s.requests[j].pc == Running(w) && s.requests[k].pc == Running(w)
    requires s.pool[w].activation == s.requests[k].activation
    ensures OnlyNexts(ms) && Soiled(Exec(s, ms), s.requests[k].activation)
  {
    hide Step;
    BadPoisons(s, j, w);
    CellSoils(Step(s, Next(j, true, BAD)), k, w);
    ms := [Next(j, true, BAD), Next(k, true, GOOD)];
    TwoSteps(s, Next(j, true, BAD), Next(k, true, GOOD));
  }

  lemma TwoSteps(s: State, l: Label, m: Label)
    ensures Exec(s, [l, m]) == Step(Step(s, l), m)
  {
    hide Step;
    ExecNone(s);
    ExecSnoc(s, [], l);
    ExecSnoc(s, [l], m);
    assert [] + [l] == [l] && [l] + [m] == [l, m];
  }

  lemma {:induction false} ExecCons(s: State, l: Label, ms: seq<Label>)
    ensures Exec(s, [l] + ms) == Exec(Step(s, l), ms)
    decreases |ms|
  {
    hide Step;
    if ms == [] {
      assert [l] + ms == [l] && [l][..0] == [];
    } else {
      var n := |ms| - 1;
      assert ([l] + ms)[..n + 1] == [l] + ms[..n];
      ExecCons(s, l, ms[..n]);
    }
  }

  /** The newcomer joins a request that runs on the live worker. */
  lemma JoinSoils(s: State, j: nat, k: nat) returns (ms: seq<Label>)
    requires MapShaped(s) && j < |s.requests| && k < |s.requests| && j != k
    requires s.requests[k] == Request(s.requests[j].activation, Finding) && MappedLive(s, s.requests[j].activation)
    requires s.requests[j].pc == Running(s.workers[s.requests[j].activation])
    ensures OnlyNexts(ms) && Soiled(Exec(s, ms), s.requests[j].activation)
  {
    hide Step;
    FindsLive(s, k);
    var t := SetPc(s, k, Running(s.workers[s.requests[j].activation]));
    var rest := BothRunningSoils(t, j, k, s.workers[s.requests[j].activation]);
    ms := [Next(k, true, GOOD)] + rest;
    ExecCons(s, Next(k, true, GOOD), rest);
  }

  lemma SearchSoils(s: State, j: nat, k: nat) returns (ms: seq<Label>)
    requires MapShaped(s) && j < |s.requests| && k < |s.requests| && j != k
    requires s.requests[j].pc == Finding && s.requests[k] == Request(s.requests[j].activation, Finding)
    ensures OnlyNexts(ms) && Soiled(Exec(s, ms), s.requests[j].activation)
  {
    FindShape(s, s.requests[j].activation, true, []);
    FindsSome(s, j);
    var t := Step(s, Next(j, true, GOOD));
    assert MapShaped(t);
    hide Step;
    var rest := JoinSoils(t, j, k);
    ms := [Next(j, true, GOOD)] + rest;
    ExecCons(s, Next(j, true, GOOD), rest);
  }

  lemma DiscardSoils(s: State, k: nat) returns (ms: seq<Label>)
    requires MapShaped(s) && k < |s.requests| && s.requests[k].pc == Finding
    requires MappedLive(s, s.requests[k].activation) && Poisoned(s.pool[s.workers[s.requests[k].activation]])
    ensures OnlyNexts(ms) && Soiled(Exec(s, ms), s.requests[k].activation)
  {
    hide Step;
    FindsLive(s, k);
    var w := s.workers[s.requests[k].activation];
    CellSoils(SetPc(s, k, Running(w)), k, w);
    ms := [Next(k, true, GOOD), Next(k, true, GOOD)];
    TwoSteps(s, Next(k, true, GOOD), Next(k, true, GOOD));
  }

  lemma ArrivalShape(s: State, g: Text)
    requires Inv(s)
    ensures var t := Step(s, Arrive(g, EvalCell));
            && MapShaped(t) && Shaped(t) && SameCore(s, t) && Unsoiled(t, g)
            && t.requests == s.requests + [Request(g, Finding)]
  {
    InvIsShaped(s);
    forall w | 0 <= w < |s.pool| ensures Tidy(s.pool[w]) {
      assert History(s.pool[w]);
    }
  }

  lemma RunningIsMapped(s: State, r: nat)
    requires Inv(s) && r < |s.requests| && s.requests[r].pc.Running?
    ensures var g := s.requests[r].activation; MappedLive(s, g) && s.requests[r].pc == Running(s.workers[g])
  {
    EvaluateKeepsInv(s, r, s.requests[r].pc.w, GOOD);
    RequestIsOk(s, r);
  }

  lemma ExposedSoils(s: State, r: nat) returns (ms: seq<Label>)
    requires Inv(s) && DiscardsOk(s) && r < |s.requests| && Exposed(s, r)
    ensures OnlyNexts(ms) && Soiled(Exec(Step(s, Arrive(s.requests[r].activation, EvalCell)), ms), s.requests[r].activation)
  {
    var g := s.requests[r].activation;
    assert DiscardOk(s, s.requests[r]);
    ArrivalShape(s, g);
    if s.requests[r].pc.Running? {
      RunningIsMapped(s, r);
    }
    hide Inv, Step, Shaped, Unsoiled, Poisoned;
    var t := Step(s, Arrive(g, EvalCell));
    var k := |s.requests|;
    match s.requests[r].pc
    case Finding => ms := SearchSoils(t, r, k);
    case Running(_) => ms := JoinSoils(t, r, k);
    case Discarding(_) => ms := DiscardSoils(t, k);
  }

  lemma UnexposedIsHarmless(s: State, r: nat)
    requires Inv(s) && r < |s.requests| && Open(s.requests[r]) && !Exposed(s, r)
    ensures HarmlessInv(Step(s, Arrive(s.requests[r].activation, EvalCell)), s.requests[r].activation, |s.requests|)
  {
    var g := s.requests[r].activation;
    var k := |s.requests|;
    var t := Step(s, Arrive(g, EvalCell));
    ArrivalShape(s, g);
    DiscardsHere(s, r);
    assert Safe(t, t.requests[k]);
    forall j | 0 <= j < |t.requests| && j != k && t.requests[j].activation == g
      ensures !t.requests[j].pc.Finding? && !t.requests[j].pc.Running?
    {
      assert t.requests[j] == s.requests[j];
    }
  }

  /** Which overlaps break reuse. After every serial run, let an evaluation arrive
      while another request of its activation is open. Some continuation then runs
      a cell of that activation after an unclean one exactly if the open request is
      looking for its worker, running its cell, or about to discard a worker that
      is still live; an overlapping init or close, or the discard of a dead worker,
      is harmless whatever else interleaves. */
  lemma OverlapSoilsIff(ls: seq<Label>, r: nat)
    requires SerialRun(ls) && r < |Exec(Init(), ls).requests| && Open(Exec(Init(), ls).requests[r])
    ensures var s := Exec(Init(), ls); var g := s.requests[r].activation;
            (exists ms :: OnlyNexts(ms) && Soiled(Exec(Step(s, Arrive(g, EvalCell)), ms), g)) <==> Exposed(s, r)
  {
    hide Exec, Step, Inv, HarmlessInv, OnlyNexts, Soiled, Exposed, DiscardsOk;
    SerialKeepsInv(ls);
    SerialDiscards(ls);
    var s := Exec(Init(), ls);
    var g := s.requests[r].activation;
    var t := Step(s, Arrive(g, EvalCell));
    if Exposed(s, r) {
      var ms := ExposedSoils(s, r);
    } else {
      UnexposedIsHarmless(s, r);
      forall ms | OnlyNexts(ms) ensures !Soiled(Exec(t, ms), g) {
        HarmlessRun(t, ms, g, |s.requests|);
        HarmlessIsUnsoiled(Exec(t, ms), g, |s.requests|);
      }
    }
  }

  lemma HarmlessIsUnsoiled(s: State, g: Text, k: nat)
    requires HarmlessInv(s, g, k)
    ensures !Soiled(s, g)
  {
    UnsoiledIsClean(s, g);
  }

  // ------------------------------------------------------------------- the broker

  class Broker {
    var workers: map<Text, nat>
    var pool: seq<Worker>
    ghost var requests: seq<Request>

    ghost function View(): State
      reads this
    {
      State(workers, pool, requests)
    }

    /** With no request open, every worker in the map may be used again. */
    ghost predicate Rested()
      reads this
    {
      PoolOk(View()) && forall g :: g in workers ==>
        workers[g] < |pool| && pool[workers[g]].activation == g && !pool[workers[g]].dead && AllClean(pool[workers[g]])
    }

    constructor ()
      ensures Rested() && View() == Init()
    {
      workers, pool, requests := map[], [], [];
    }

    method SessionFor(g: Text, spawns: bool) returns (w: Option<nat>)
      modifies this`workers, this`pool
      ensures var f := Find(old(View()), g, spawns); View() == f.state && w == f.worker
    {
      if g in workers && workers[g] < |pool| && !pool[workers[g]].dead {
        return Some(workers[g]);
      }
      if !spawns {
        return None;
      }
      pool := pool + [Worker(g, false, [])];
      workers := workers[g := |pool| - 1];
      return Some(|pool| - 1);
    }

    method DropSession(g: Text)
      modifies this`workers, this`pool
      ensures View() == Drop(old(View()), g)
      ensures g !in workers && |pool| == |old(pool)|
      ensures forall w :: 0 <= w < |pool| ==> pool[w] == old(pool)[w].(dead := pool[w].dead)
      ensures g in old(workers) && old(workers[g]) < |pool| ==> pool[old(workers[g])].dead
      ensures forall w :: 0 <= w < |pool| && (g !in old(workers) || w != old(workers)[g]) ==> pool[w] == old(pool)[w]
      ensures forall h :: h != g ==> (h in workers <==> h in old(workers)) && (h in workers ==> workers[h] == old(workers)[h])
    {
      if g in workers {
        var w := workers[g];
        workers := workers - {g};
        if w < |pool| && !pool[w].dead {
          pool := pool[w := pool[w].(dead := true)];
        }
        assert w < |pool| ==> pool == old(pool)[w := old(pool)[w].(dead := true)];
      }
    }

    /** eval on a live, clean worker. */
    method RunCell(w: nat, g: Text, o: Outcome)
      requires PoolOk(View()) && w < |pool| && pool[w].activation == g && !pool[w].dead && AllClean(pool[w])
      modifies this`pool
      ensures View() == Evaluate(old(View()), g, w, o) && PoolOk(View())
      ensures Clean(o) ==> !pool[w].dead && AllClean(pool[w])
    {
      EvaluateKeepsHistory(pool[w], o);
      hide History, AllClean;
      pool := pool[w := pool[w].(cells := pool[w].cells + [Cell(g, o)], dead := o.Broken?)];
    }

    /** What sessionFor hands out at rest is live, clean and the activation's own. */
    method Acquire(g: Text, spawns: bool) returns (w: Option<nat>)
      requires Rested()
      modifies this`workers, this`pool
      ensures Rested() && SparesOthers(g) && (w.Some? ==> g in workers && workers[g] == w.value)
      ensures w.None? <==> g !in old(workers) && !spawns
      ensures w.None? || g in old(workers) ==> View() == old(View())
      ensures w.Some? && g !in old(workers) ==>
                w.value == |old(pool)| && pool == old(pool) + [Worker(g, false, [])] && workers == old(workers)[g := w.value]
    {
      FreshIsClean(g);
      FreshHistory(g);
      hide AllClean, History;
      w := SessionFor(g, spawns);
    }

    /** The other activations keep their workers as they are. */
    twostate predicate SparesOthers(g: Text)
      reads this
    {
      forall h :: h in old(workers) && h != g ==>
        && h in workers && workers[h] == old(workers)[h]
        && (workers[h] < |old(pool)| ==> workers[h] < |pool| && pool[workers[h]] == old(pool)[workers[h]])
    }

    /** handleInitSession: whatever worker there was is dead, the new one unused. */
    method InitSession(g: Text, spawns: bool) returns (reply: Reply)
      requires Rested()
      modifies this`workers, this`pool
      ensures Rested() && SparesOthers(g)
      ensures reply == if spawns then Session(true) else Unavailable
      ensures g in workers <==> spawns
      ensures spawns ==> workers[g] == |old(pool)| < |pool| && pool[workers[g]] == Worker(g, false, [])
      ensures g in old(workers) ==> old(workers[g]) < |pool| && pool[old(workers[g])].dead
    {
      hide AllClean, History, Drop, Find, Evaluate, PoolOk;
      DropKeepsPool(View(), g);
      DropSession(g);
      var w := Acquire(g, spawns);
      reply := if w.Some? then Session(true) else Unavailable;
    }

    /** handleCloseSession. */
    method CloseSession(g: Text) returns (reply: Reply)
      requires Rested()
      modifies this`workers, this`pool
      ensures Rested() && SparesOthers(g)
      ensures reply == Session(false) && g !in workers && |pool| == |old(pool)|
      ensures g in old(workers) ==> pool[old(workers[g])].dead
    {
      hide AllClean, History, Drop, Find, Evaluate, PoolOk;
      DropKeepsPool(View(), g);
      DropSession(g);
      reply := Session(false);
    }

    /** handleGoEvalSession, undisturbed by other requests of its activation. A
        request whose parent deadline has passed touches nothing. */
    method GoEval(g: Text, expired: bool, spawns: bool, o: Outcome) returns (reply: Reply)
      requires Rested()
      modifies this`workers, this`pool
      ensures Rested() && SparesOthers(g)
      ensures reply.DeadlinePassed? <==> expired
      ensures reply.Unavailable? <==> !expired && g !in old(workers) && !spawns
      ensures reply.DeadlinePassed? || reply.Unavailable? ==> View() == old(View())
      ensures reply.Result? ==> reply == Result(o, if o.Ran? && !o.failed then o.intents else [])
      ensures reply.Result? <==> !expired && (g in old(workers) || spawns)
      ensures reply.Result? ==>
                var w := if g in old(workers) then old(workers[g]) else |old(pool)|;
                && w < |pool| && pool[w].activation == g
                && pool[w].cells == (if g in old(workers) then old(pool[workers[g]].cells) else []) + [Cell(g, o)]
                && (g in workers <==> o.Ran? && (!o.failed || o.preserving)) && (g in workers ==> workers[g] == w)
    {
      hide AllClean, History, Drop, Find, Evaluate, PoolOk;
      if expired {
        return DeadlinePassed;
      }
      var w := Acquire(g, spawns);
      if w.None? {
        return Unavailable;
      }
      Serve(g, w.value, o);
      return ReplyTo(o);
    }

    /** The cell on the acquired worker, which is dropped unless it ends clean. */
    method Serve(g: Text, w: nat, o: Outcome)
      requires Rested() && g in workers && workers[g] == w
      modifies this`workers, this`pool
      ensures Rested() && SparesOthers(g)
      ensures |pool| == |old(pool)| && w < |pool| && pool[w].activation == g && pool[w].cells == old(pool)[w].cells + [Cell(g, o)]
      ensures (g in workers <==> o.Ran? && (!o.failed || o.preserving)) && (g in workers ==> workers[g] == w)
    {
      hide AllClean, History, Drop, Find, PoolOk;
      RunCell(w, g, o);
      if !Clean(o) {
        DropKeepsPool(View(), g);
        DropSession(g);
      }
    }
  }
}
