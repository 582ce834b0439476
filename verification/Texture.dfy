/** The Texture branch of the coagent-result handler, and what it means for the
    durable row of a Texture occurrence. */
module Texture {
  import opened Updates
  import opened Wrappers
  import opened ActorProtocol
  import opened ActorFrames
  import opened ActorInvariants
  import opened ActorTheorems
  import opened ActorRuns
  import opened ActorStranding
  import opened Identity

  // ------------------------------------------------------------- the handler branch

  datatype Fate = Undisposed | Terminal
  datatype Occurrence = Occurrence(owner: Text, trajectory: Text, producer: Text, ownerInstruction: bool)

  datatype Resolve = ResolveInvalid | ResolveError | Resolved(occurrence: Occurrence, fate: Fate)
  datatype Reconcile = ReconcileInvalid | ReconcileError | NoRun | Selected
  datatype Execute = Executed | MustRemain | ExecuteError
  datatype Post = PostError | StillPending | Disposed

  /** What the Texture owner, the activation and the store answer to one call. */
  datatype Answers = Answers(
    ownerBound: bool,
    resolve: Resolve,
    reconcile: Reconcile,
    authorityOk: bool,
    execute: Execute,
    post: Post,
    memory: Option<Memory>)

  /** `Return` acknowledges the row; `Defer` keeps it as the ordered head; `Error` retries. */
  datatype Verdict = Return(memory: Memory) | Defer | Error

  function OwnerPrefix(): Text { Ascii("owner:") }
  function TexturePrefix(): Text { Ascii("texture:") }

  function ExpectedSource(o: Occurrence): Text {
    if o.ownerInstruction then OwnerPrefix() + o.owner else o.producer
  }

  /** The envelope belongs to another trajectory or source. */
  predicate ForeignEnvelope(u: Update, o: Occurrence) {
    || (TrimSpace(u.trajectory) != [] && TrimSpace(u.trajectory) != o.trajectory)
    || (TrimSpace(u.fromAgent) != [] && TrimSpace(u.fromAgent) != ExpectedSource(o))
  }

  function Handle(u: Update, a: Answers): Verdict {
    if !a.ownerBound then Defer
    else if a.resolve.ResolveInvalid? then Return([])
    else if a.resolve.ResolveError? then Defer
    else if ForeignEnvelope(u, a.resolve.occurrence) then Return([])
    else if a.resolve.fate == Terminal then Return([])
    else if a.reconcile == ReconcileInvalid then Return([])
    else if a.reconcile == ReconcileError || a.reconcile == NoRun then Defer
    else if !a.authorityOk then Defer
    else if a.execute != Executed then Defer
    else if a.post == PostError || a.post == StillPending then Defer
    else if a.memory.Some? then Return(a.memory.value)
    else Error
  }

  /** The envelope names no trajectory or the occurrence's, and no sender or the
      expected one: the producer, or for an owner's instruction that owner. */
  predicate OwnEnvelope(u: Update, o: Occurrence) {
    var sender := TrimSpace(u.fromAgent);
    && TrimSpace(u.trajectory) in {[], o.trajectory}
    && (|| sender == []
        || (!o.ownerInstruction && sender == o.producer)
        || (o.ownerInstruction && sender == [111, 119, 110, 101, 114, 58] + o.owner))
  }

  lemma OwnOrForeign(u: Update, o: Occurrence)
    ensures OwnEnvelope(u, o) <==> !ForeignEnvelope(u, o)
  {
    hide TrimSpace;
    assert OwnerPrefix() == [111, 119, 110, 101, 114, 58];
  }

  /** The store resolves a valid, matching occurrence that is still pending. */
  predicate Pends(u: Update, a: Answers) {
    && a.ownerBound && a.resolve.Resolved? && OwnEnvelope(u, a.resolve.occurrence)
    && a.resolve.fate == Undisposed
  }

  /** The occurrence is none of this document's business, or already settled. */
  predicate Dismissed(u: Update, a: Answers) {
    && a.ownerBound
    && (|| a.resolve.ResolveInvalid?
        || (a.resolve.Resolved? && (!OwnEnvelope(u, a.resolve.occurrence) || a.resolve.fate == Terminal)))
  }

  /** The owner selected a run and it may act for the document. */
  predicate Authorized(a: Answers) {
    a.reconcile == Selected && a.authorityOk
  }

  /** The activation ran and its postcondition says the occurrence is disposed of. */
  predicate Carried(a: Answers) {
    Authorized(a) && a.execute == Executed && a.post == Disposed
  }

  /** Every call has one of three verdicts, each with its exact condition. A row is
      acknowledged if it was dismissed, or pending and either carried out or called
      invalid by the reconcile step; it is only retried if nothing but the new
      memory is missing; all else defers it. */
  lemma VerdictIsExact(u: Update, a: Answers)
    ensures Handle(u, a).Return? <==>
              Dismissed(u, a) || (Pends(u, a) && (a.reconcile == ReconcileInvalid || (Carried(a) && a.memory.Some?)))
    ensures Handle(u, a).Error? <==> Pends(u, a) && Carried(a) && a.memory.None?
    ensures Handle(u, a).Defer? <==>
              !Dismissed(u, a) && !(Pends(u, a) && (a.reconcile == ReconcileInvalid || Carried(a)))
    ensures Handle(u, a).Return? ==> Handle(u, a).memory == if Carried(a) && Pends(u, a) then a.memory.value else []
    ensures Pends(u, a) ==> !Dismissed(u, a)
  {
    hide ForeignEnvelope, OwnEnvelope;
    if a.resolve.Resolved? {
      OwnOrForeign(u, a.resolve.occurrence);
    }
  }

  /** What the envelope decides. With the owner bound and an undisposed occurrence,
      a row whose sender and trajectory are absent or the occurrence's own is
      acknowledged only when it was carried out or reconcile called it invalid;
      with any other sender or trajectory it is dismissed at once. */
  lemma EnvelopeDecides(u: Update, a: Answers)
    requires a.ownerBound && a.resolve.Resolved? && a.resolve.fate == Undisposed
    ensures var o := a.resolve.occurrence; var sender := TrimSpace(u.fromAgent); var trajectory := TrimSpace(u.trajectory);
            var expected := if o.ownerInstruction then [111, 119, 110, 101, 114, 58] + o.owner else o.producer;
            var settled := a.reconcile == ReconcileInvalid
                           || (a.reconcile == Selected && a.authorityOk && a.execute == Executed && a.post == Disposed && a.memory.Some?);
            && ((trajectory == [] || trajectory == o.trajectory) && (sender == [] || sender == expected) ==>
                  (Handle(u, a).Return? <==> settled))
            && ((trajectory != [] && trajectory != o.trajectory) || (sender != [] && sender != expected) ==>
                  Handle(u, a) == Return([]))
  {
    hide TrimSpace, ForeignEnvelope;
    OwnOrForeign(u, a.resolve.occurrence);
    VerdictIsExact(u, a);
  }

  // ----------------------------------------------------------------- over whole runs

  /** Updates that reach the branch. */
  predicate IsTexture(u: Update) {
    && TrimSpace(u.kind) == CoagentResult()
    && ParseScoped(u.toAgent).Some?
    && TexturePrefix() <= ParseScoped(u.toAgent).value.agent
  }

  /** The handler's answer in step l is the branch's verdict on a. */
  ghost predicate Fits(s: State, l: Label, a: Answers) {
    forall i, u :: Calls(s, i, u) && IsTexture(u) ==>
      && (forall next :: l == HandleOk(i, next) ==> Handle(u, a) == Return(next))
      && (l == Own(i, HandleDefer) ==> Handle(u, a) == Defer)
      && (l == Own(i, HandleFail) ==> Handle(u, a) == Error)
  }

  ghost predicate Annotated(c: Config, ls: seq<Label>, notes: seq<Answers>) {
    |notes| == |ls| && forall n :: 0 <= n < |ls| ==> Fits(Exec(c, Init(), ls[..n]), ls[n], notes[n])
  }

  /** A recorded call happened in some step of the run. */
  lemma {:induction false} CallHasStep(c: Config, ls: seq<Label>, k: Call) returns (n: nat)
    requires k in Exec(c, Init(), ls).calls
    ensures n < |ls| && ls[n] == HandleOk(k.act, k.after) && Calls(Exec(c, Init(), ls[..n]), k.act, k.update)
    decreases |ls|
  {
    hide Step;
    var m := |ls| - 1;
    var s := Exec(c, Init(), ls[..m]);
    if k in s.calls {
      n := CallHasStep(c, ls[..m], k);
      assert ls[..m][..n] == ls[..n] && ls[..m][n] == ls[n];
    } else {
      StepCalls(c, s, ls[m], k);
      n := m;
    }
  }

  /** A Texture row is marked processed only after a call that dismissed the
      occurrence, carried it out, or found it pending and then called it invalid,
      whatever else happened in the run. */
  lemma AcknowledgedAfterVerdict(c: Config, ls: seq<Label>, notes: seq<Answers>, id: Text) returns (n: nat)
    requires c.Ok() && Annotated(c, ls, notes)
    requires IsProcessed(Exec(c, Init(), ls).log, id) && IsTexture(Exec(c, Init(), ls).log[id].update)
    ensures n < |ls| == |notes| && ls[n].HandleOk? && Calls(Exec(c, Init(), ls[..n]), ls[n].i, Exec(c, Init(), ls).log[id].update)
    ensures var u := Exec(c, Init(), ls).log[id].update;
            Dismissed(u, notes[n]) || (Pends(u, notes[n]) && (Carried(notes[n]) || notes[n].reconcile == ReconcileInvalid))
  {
    hide Exec, IsTexture, Handle, Dismissed, Pends, Carried;
    MarkedAfterHandled(c, ls, id);
    var s := Exec(c, Init(), ls);
    var u := s.log[id].update;
    var k :| k in s.calls && k.update == u;
    n := CallHasStep(c, ls, k);
    assert Fits(Exec(c, Init(), ls[..n]), ls[n], notes[n]);
    VerdictIsExact(u, notes[n]);
  }

  /** An occurrence that the store resolves as pending whenever a call on it
      succeeds is marked only after an activation disposed of it, unless some
      call's reconcile step answered that it is invalid. */
  lemma NeverAcknowledgedEarly(c: Config, ls: seq<Label>, notes: seq<Answers>, id: Text) returns (n: nat)
    requires c.Ok() && Annotated(c, ls, notes)
    requires IsProcessed(Exec(c, Init(), ls).log, id) && IsTexture(Exec(c, Init(), ls).log[id].update)
    requires var u := Exec(c, Init(), ls).log[id].update;
             forall m :: 0 <= m < |ls| && ls[m].HandleOk? && Calls(Exec(c, Init(), ls[..m]), ls[m].i, u) ==> Pends(u, notes[m])
    ensures n < |ls| && ls[n].HandleOk? && Calls(Exec(c, Init(), ls[..n]), ls[n].i, Exec(c, Init(), ls).log[id].update)
    ensures n < |notes| && (Carried(notes[n]) || notes[n].reconcile == ReconcileInvalid)
  {
    hide Exec, IsTexture, Annotated, Pends, Dismissed, Carried, Calls;
    n := AcknowledgedAfterVerdict(c, ls, notes, id);
    VerdictIsExact(Exec(c, Init(), ls).log[id].update, notes[n]);
  }

  // --------------------------------------------- pending, then called invalid

  function Acknowledging(u: Update): seq<Label> {
    FirstCall(u) + [HandleOk(0, []), MarkOk(0)]
  }

  lemma OnlyCall(u: Update, i: nat, v: Update)
    requires Calls(CallingState(u), i, v)
    ensures i == 0 && v == u
  {
  }

  lemma HandleFits(u: Update, a: Answers, l: Label)
    requires Handle(u, a) == Return([]) && l == HandleOk(0, [])
    ensures Fits(CallingState(u), l, a)
  {
    hide IsTexture, Handle, Calls;
    forall i, v | Calls(CallingState(u), i, v) ensures i == 0 && v == u {
      OnlyCall(u, i, v);
    }
  }

  lemma OtherFits(s: State, l: Label, a: Answers)
    requires !l.HandleOk? && (l.Own? ==> l.e != HandleDefer && l.e != HandleFail)
    ensures Fits(s, l, a)
  {
    hide IsTexture, Handle, Calls;
  }

  /** Without the exception the promise is false: for every Texture update whose
      occurrence resolves as pending and whose reconcile then answers invalid there
      is a run that marks its row, and no activation is ever executed for it. */
  lemma InvalidReconcileAcknowledges(c: Config, u: Update, a: Answers) returns (ls: seq<Label>, notes: seq<Answers>)
    requires Uncapped(c) && IsTexture(u) && u.id != [] && u.toAgent != []
    requires Pends(u, a) && a.reconcile == ReconcileInvalid && !Carried(a)
    ensures Annotated(c, ls, notes) && IsProcessed(Exec(c, Init(), ls).log, u.id) && Exec(c, Init(), ls).log[u.id].update == u
    ensures forall n :: 0 <= n < |notes| ==> notes[n] == a
  {
    VerdictIsExact(u, a);
    hide Exec, Step, IsTexture, Handle, Pends, Carried, Fits, CallingState;
    ls := Acknowledging(u);
    notes := seq(|ls|, _ => a);
    HandleFirst(c, u);
    MarkFirst(c, u);
    ExecConcat(c, Init(), FirstCall(u), [HandleOk(0, []), MarkOk(0)]);
    forall n | 0 <= n < |ls| ensures Fits(Exec(c, Init(), ls[..n]), ls[n], notes[n]) {
      if n == 5 {
        assert ls[..5] == FirstCall(u);
        HandleFits(u, a, ls[n]);
      } else {
        OtherFits(Exec(c, Init(), ls[..n]), ls[n], a);
      }
    }
  }

  /** Such updates and answers exist. */
  lemma PendingInvalidExists() returns (u: Update, a: Answers)
    ensures IsTexture(u) && u.id != [] && u.toAgent != []
    ensures Pends(u, a) && a.reconcile == ReconcileInvalid && !Carried(a)
  {
    hide TrimSpace, ParseScoped, CoagentResult, TexturePrefix;
    var agent: Text := [116, 101, 120, 116, 117, 114, 101, 58, 100];
    var scope := Scope([111], [99], agent);
    WordIsTrimmed([111]);
    WordIsTrimmed([99]);
    WordIsTrimmed(agent);
    ParseOfScoped(scope);
    KindIsTrimmed();
    PrefixIs(agent);
    EmptyIsTrimmed();
    u := Update([1], ScopedMailboxId(scope), [], CoagentResult(), [], [], 0);
    a := Answers(true, Resolved(Occurrence([111], [], [], false), Undisposed), ReconcileInvalid, false, MustRemain, PostError, None);
  }

  lemma EmptyIsTrimmed()
    ensures TrimSpace([]) == []
  {
  }

  lemma KindIsTrimmed()
    ensures TrimSpace(CoagentResult()) == CoagentResult()
  {
    hide TrimSpace;
    WordIsTrimmed(CoagentResult());
  }

  lemma PrefixIs(agent: Text)
    requires agent == [116, 101, 120, 116, 117, 114, 101, 58, 100]
    ensures TexturePrefix() <= agent
  {
    assert TexturePrefix() == [116, 101, 120, 116, 117, 114, 101, 58];
  }
}
