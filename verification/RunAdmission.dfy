/** Idempotent admission of typed ingestion runs. */
module RunAdmission {
  import opened Updates
  import opened Wrappers
  import opened Identity

  // ------------------------------------------------------------------------ data

  datatype Profile = Processor | Reconciler | OtherProfile | NoProfile

  datatype Value = Str(text: Text) | NotString(n: int)

  /** Metadata keys. `Contract` holds the other keys of the ingestion contract
      that runs stored before fingerprints are compared by. */
  datatype Key =
    | AgentProfile
    | AgentRole
    | RequestSource
    | RequestId
    | RequestKind
    | FingerprintKey
    | Contract(name: Text)
    | Extra(name: Text)

  type Metadata = map<Key, Value>

  /** A submission; `profile` is the canonical form of its agent_profile entry. */
  datatype Request = Request(owner: Text, prompt: Text, profile: Profile, metadata: Metadata)

  datatype Handoff = Handoff(owner: Text, profile: Profile, id: Text, kind: Text)

  /** The hashed payload. The digest is symbolic: equal prints mean equal payloads. */
  datatype Print = Print(owner: Text, prompt: Text, metadata: Metadata)

  /** A stored row. `handoff` is its typed identity, `stamp` the stored fingerprint;
      a `scoped` row is a computer-scoped projection and never a receipt. */
  datatype Run = Run(
    handoff: Option<Handoff>,
    owner: Text,
    profile: Profile,
    prompt: Text,
    metadata: Metadata,
    stamp: Option<Print>,
    scoped: bool)

  datatype Response =
    | BadRequest
    | Conflict
    | Ambiguous
    | TooMany
    | ServerError
    | Accepted(index: nat)

  // --------------------------------------------------------------- normalisation

  function StringAt(m: Metadata, k: Key): Text {
    if k in m && m[k].Str? then TrimSpace(m[k].text) else []
  }

  function ProcessorName(): Text { Ascii("processor") }
  function ReconcilerName(): Text { Ascii("reconciler") }
  function HandoffSource(): Text { Ascii("internal_ingestion_handoff") }

  function ProfileName(p: Profile): Text {
    if p == Processor then ProcessorName() else ReconcilerName()
  }

  predicate Ingests(p: Profile) {
    p == Processor || p == Reconciler
  }

  /** Defaults the handler writes into every accepted request's metadata. */
  function Defaulted(q: Request): Metadata {
    var m := q.metadata[AgentProfile := Str(ProfileName(q.profile))];
    var m := if StringAt(m, AgentRole) == [] then m[AgentRole := Str(ProfileName(q.profile))] else m;
    if StringAt(m, RequestSource) == [] then m[RequestSource := Str(HandoffSource())] else m
  }

  predicate Typed(q: Request) {
    RequestId in q.metadata
  }

  /** Both handoff fields as non-empty strings, or neither. */
  predicate WellFormed(q: Request) {
    && TrimSpace(q.owner) != [] && TrimSpace(q.prompt) != [] && Ingests(q.profile)
    && (RequestId in q.metadata <==> RequestKind in q.metadata)
    && (RequestId in q.metadata ==> StringAt(q.metadata, RequestId) != [] && StringAt(q.metadata, RequestKind) != [])
  }

  function HandoffOf(q: Request): Handoff {
    Handoff(TrimSpace(q.owner), q.profile, StringAt(q.metadata, RequestId), StringAt(q.metadata, RequestKind))
  }

  /** The metadata a typed submission is fingerprinted with. */
  function TypedMetadata(q: Request): Metadata {
    Defaulted(q)[RequestId := Str(StringAt(q.metadata, RequestId))][RequestKind := Str(StringAt(q.metadata, RequestKind))]
  }

  function Without(m: Metadata, k: Key): Metadata {
    m - {k}
  }

  predicate IsContractKey(k: Key) {
    !k.Extra? && k != FingerprintKey
  }

  function ContractPart(m: Metadata): Metadata {
    map k | k in m && IsContractKey(k) :: m[k]
  }

  function FullPrint(q: Request): Print {
    Print(TrimSpace(q.owner), q.prompt, Without(TypedMetadata(q), FingerprintKey))
  }

  function LegacyPrint(owner: Text, prompt: Text, m: Metadata): Print {
    Print(TrimSpace(owner), prompt, ContractPart(m))
  }

  /** Does a submission repeat the one a run was stored for? */
  predicate SameSubmission(run: Run, q: Request) {
    match run.stamp
    case Some(p) => p == FullPrint(q)
    case None => LegacyPrint(run.owner, run.prompt, run.metadata) == LegacyPrint(q.owner, q.prompt, TypedMetadata(q))
  }

  // ------------------------------------------------------------------ one request

  /** The newest row of an identity below position k. Rows stand in the order of
      their last update, so the newest is the last. */
  function LastRow(runs: seq<Run>, h: Handoff, k: nat): (r: Option<nat>)
    requires k <= |runs|
    ensures r.Some? ==> r.value < k && runs[r.value].handoff == Some(h)
    ensures r.Some? ==> forall j :: r.value < j < k ==> runs[j].handoff != Some(h)
    ensures r.None? ==> forall j :: 0 <= j < k ==> runs[j].handoff != Some(h)
    decreases k
  {
    if k == 0 then None
    else if runs[k - 1].handoff == Some(h) then Some(k - 1)
    else LastRow(runs, h, k - 1)
  }

  function Unscoped(runs: seq<Run>, i: nat): seq<nat>
    requires i < |runs|
  {
    if runs[i].scoped then [] else [i]
  }

  /** ListRunsByIngestionHandoff with its limit of two: the two rows of the
      identity updated last, and only then are the projections dropped. */
  function Receipts(runs: seq<Run>, h: Handoff): (found: seq<nat>)
    ensures forall k :: 0 <= k < |found| ==> found[k] < |runs| && runs[found[k]].handoff == Some(h) && !runs[found[k]].scoped
    ensures |found| <= 2 && (|found| == 2 ==> found[0] != found[1])
  {
    var first := LastRow(runs, h, |runs|);
    if first.None? then []
    else
      var second := LastRow(runs, h, first.value);
      Unscoped(runs, first.value) + if second.Some? then Unscoped(runs, second.value) else []
  }

  function NewRun(q: Request): Run {
    if Typed(q)
    then Run(Some(HandoffOf(q)), TrimSpace(q.owner), q.profile, q.prompt, TypedMetadata(q), Some(FullPrint(q)), false)
    else Run(None, TrimSpace(q.owner), q.profile, q.prompt, Defaulted(q), None, false)
  }

  /** The first of the handler's own calls that fails, if it is reached. */
  datatype Fault = NoFault | FingerprintFault | LookupFault | StartFault

  datatype Result = Result(runs: seq<Run>, response: Response)

  /** `full` says the processors are at capacity. */
  function Admit(runs: seq<Run>, q: Request, full: bool, fault: Fault): Result {
    if !WellFormed(q) then Result(runs, BadRequest)
    else if Typed(q) && (fault == FingerprintFault || fault == LookupFault) then Result(runs, ServerError)
    else
      var found := if Typed(q) then Receipts(runs, HandoffOf(q)) else [];
      if |found| > 1 then Result(runs, Ambiguous)
      else if |found| == 1 then
        Result(runs, if SameSubmission(runs[found[0]], q) then Accepted(found[0]) else Conflict)
      else if q.profile == Processor && full then Result(runs, TooMany)
      else if fault == StartFault then Result(runs, ServerError)
      else Result(runs + [NewRun(q)], Accepted(|runs|))
  }

  // ------------------------------------------------------------- whole sequences

  /** A submission, or some later update of a row, which makes it the newest. */
  datatype Event = Submit(q: Request, full: bool, fault: Fault) | Touch(i: nat)

  function Touched(runs: seq<Run>, i: nat): seq<Run>
    requires i < |runs|
  {
    runs[..i] + runs[i + 1..] + [runs[i]]
  }

  function Happen(runs: seq<Run>, e: Event): seq<Run> {
    match e
    case Submit(q, full, fault) => Admit(runs, q, full, fault).runs
    case Touch(i) => if i < |runs| then Touched(runs, i) else runs
  }

  function AdmitAll(runs: seq<Run>, es: seq<Event>): seq<Run>
    decreases |es|
  {
    if es == [] then runs else Happen(AdmitAll(runs, es[..|es| - 1]), es[|es| - 1])
  }

  ghost predicate OnlySubmits(es: seq<Event>) {
    forall e :: e in es ==> e.Submit?
  }

  predicate IsRun(runs: seq<Run>, i: int, h: Handoff) {
    0 <= i < |runs| && runs[i].handoff == Some(h) && !runs[i].scoped
  }

  predicate IsProjection(runs: seq<Run>, i: int, h: Handoff) {
    0 <= i < |runs| && runs[i].handoff == Some(h) && runs[i].scoped
  }

  /** At most one run per identity; projections do not count. */
  ghost predicate NoDuplicates(runs: seq<Run>) {
    forall h, j, k :: IsRun(runs, j, h) && IsRun(runs, k, h) ==> j == k
  }

  /** The identity has a run, but the lookup's two rows are projections. */
  ghost predicate Buried(runs: seq<Run>, h: Handoff) {
    Receipts(runs, h) == [] && exists i :: IsRun(runs, i, h)
  }

  predicate Submittable(q: Request) {
    WellFormed(q) && Typed(q)
  }

  ghost predicate Unburied(runs: seq<Run>) {
    forall q: Request :: Submittable(q) ==> !Buried(runs, HandoffOf(q))
  }

  /** No identity that can be submitted has two projections. */
  ghost predicate Sparse(runs: seq<Run>) {
    forall q: Request, j, k :: Submittable(q) && IsProjection(runs, j, HandoffOf(q)) && IsProjection(runs, k, HandoffOf(q)) ==> j == k
  }

  lemma NewHandoff(q: Request)
    ensures NewRun(q).handoff == (if Typed(q) then Some(HandoffOf(q)) else None) && !NewRun(q).scoped
  {
    hide HandoffOf, TypedMetadata, Defaulted, FullPrint, TrimSpace;
  }

  /** A run is the lookup's only answer, unless it is buried. */
  lemma FoundIsUnique(runs: seq<Run>, h: Handoff, i: nat)
    requires NoDuplicates(runs) && IsRun(runs, i, h) && !Buried(runs, h)
    ensures Receipts(runs, h) == [i]
  {
    hide LastRow;
    var found := Receipts(runs, h);
    forall k | 0 <= k < |found| ensures found[k] == i {
      assert IsRun(runs, found[k], h);
    }
  }

  lemma LastInMore(runs: seq<Run>, run: Run, h: Handoff, k: nat)
    requires k <= |runs|
    ensures LastRow(runs + [run], h, k) == LastRow(runs, h, k)
    decreases k
  {
    if k > 0 {
      LastInMore(runs, run, h, k - 1);
    }
  }

  /** A new run is the newest row of its identity and leaves the others alone. */
  lemma ReceiptsInMore(runs: seq<Run>, run: Run, h: Handoff)
    requires !run.scoped
    ensures run.handoff == Some(h) ==> Receipts(runs + [run], h) != []
    ensures run.handoff != Some(h) ==> Receipts(runs + [run], h) == Receipts(runs, h)
  {
    var now := runs + [run];
    LastInMore(runs, run, h, |runs|);
    var first := LastRow(runs, h, |runs|);
    if first.Some? {
      LastInMore(runs, run, h, first.value);
    }
    assert LastRow(now, h, |now|) == if run.handoff == Some(h) then Some(|runs|) else LastRow(now, h, |runs|);
  }

  lemma RunsInMore(runs: seq<Run>, run: Run, h: Handoff, i: int)
    requires !run.scoped
    ensures IsRun(runs + [run], i, h) <==> IsRun(runs, i, h) || (i == |runs| && run.handoff == Some(h))
    ensures IsProjection(runs + [run], i, h) <==> IsProjection(runs, i, h)
  {
  }

  /** Appending a run keeps uniqueness if its identity has none. */
  lemma AppendKeepsUnique(runs: seq<Run>, run: Run)
    requires NoDuplicates(runs) && !run.scoped
    requires run.handoff.Some? ==> forall i :: !IsRun(runs, i, run.handoff.value)
    ensures NoDuplicates(runs + [run])
  {
    hide IsRun, IsProjection;
    var now := runs + [run];
    forall h, j, k | IsRun(now, j, h) && IsRun(now, k, h) ensures j == k {
      RunsInMore(runs, run, h, j);
      RunsInMore(runs, run, h, k);
    }
  }

  lemma AppendBuriesNothing(runs: seq<Run>, run: Run, h: Handoff)
    requires !run.scoped && !Buried(runs, h)
    ensures !Buried(runs + [run], h)
  {
    hide Receipts, IsRun, IsProjection;
    ReceiptsInMore(runs, run, h);
    forall i ensures IsRun(runs + [run], i, h) <==> IsRun(runs, i, h) || (i == |runs| && run.handoff == Some(h)) {
      RunsInMore(runs, run, h, i);
    }
  }

  /** What a submission that adds a row has found out. */
  lemma AdmitAdds(runs: seq<Run>, q: Request, full: bool, fault: Fault)
    ensures var now := Admit(runs, q, full, fault).runs;
            || now == runs
            || (now == runs + [NewRun(q)] && WellFormed(q) && (Typed(q) ==> Receipts(runs, HandoffOf(q)) == []))
  {
    hide WellFormed, HandoffOf, SameSubmission, NewRun, Receipts, Typed;
  }

  lemma SubmitKeepsUnique(runs: seq<Run>, q: Request, full: bool, fault: Fault)
    requires NoDuplicates(runs) && (Submittable(q) ==> !Buried(runs, HandoffOf(q)))
    ensures NoDuplicates(Admit(runs, q, full, fault).runs)
  {
    hide WellFormed, HandoffOf, NewRun, Receipts, NoDuplicates, Typed, Admit, IsRun;
    NewHandoff(q);
    AdmitAdds(runs, q, full, fault);
    if Admit(runs, q, full, fault).runs != runs {
      AppendKeepsUnique(runs, NewRun(q));
    }
  }

  lemma SubmitBuriesNothing(runs: seq<Run>, q: Request, full: bool, fault: Fault)
    requires Unburied(runs)
    ensures Unburied(Admit(runs, q, full, fault).runs) && runs <= Admit(runs, q, full, fault).runs
  {
    hide Submittable, HandoffOf, NewRun, Receipts, Buried, Admit, WellFormed, Typed;
    NewHandoff(q);
    AdmitAdds(runs, q, full, fault);
    var now := Admit(runs, q, full, fault).runs;
    if now != runs {
      forall p: Request | Submittable(p) ensures !Buried(now, HandoffOf(p)) {
        AppendBuriesNothing(runs, NewRun(q), HandoffOf(p));
      }
    }
  }

  /** Each typed identity has at most one run, over every sequence of submissions,
      and runs are never dropped or rewritten. */
  lemma {:induction false} AtMostOneRun(runs: seq<Run>, es: seq<Event>)
    requires NoDuplicates(runs) && Unburied(runs) && OnlySubmits(es)
    ensures var now := AdmitAll(runs, es); NoDuplicates(now) && Unburied(now) && runs <= now
    decreases |es|
  {
    hide Admit, NoDuplicates, Submittable, Buried, HandoffOf;
    if es != [] {
      var n := |es| - 1;
      assert es[n] in es && forall e :: e in es[..n] ==> e in es;
      AtMostOneRun(runs, es[..n]);
      var now := AdmitAll(runs, es[..n]);
      SubmitKeepsUnique(now, es[n].q, es[n].full, es[n].fault);
      SubmitBuriesNothing(now, es[n].q, es[n].full, es[n].fault);
    }
  }

  lemma OneEvent(runs: seq<Run>, e: Event)
    ensures AdmitAll(runs, [e]) == Happen(runs, e)
  {
    hide Happen;
    assert [e][..0] == [];
  }

  /** One submission of a buried identity makes a second run of it. */
  lemma BuriedAdmitsAgain(runs: seq<Run>, q: Request)
    requires Submittable(q) && Buried(runs, HandoffOf(q))
    ensures !NoDuplicates(Happen(runs, Submit(q, false, NoFault)))
  {
    hide WellFormed, HandoffOf, NewRun, SameSubmission, Receipts;
    var h := HandoffOf(q);
    NewHandoff(q);
    var i :| IsRun(runs, i, h);
    var now := Happen(runs, Submit(q, false, NoFault));
    assert now == runs + [NewRun(q)];
    assert IsRun(now, i, h) && IsRun(now, |runs|, h);
  }

  /** The lookup's limit is applied before its filter, so idempotence has an exact
      condition: no sequence of submissions ever makes a second run of an identity
      exactly if no identity that can be submitted has its run buried under two
      newer projections. */
  lemma AtMostOneIff(runs: seq<Run>)
    requires NoDuplicates(runs)
    ensures Unburied(runs) <==> forall es :: OnlySubmits(es) ==> NoDuplicates(AdmitAll(runs, es))
  {
    hide NoDuplicates, AdmitAll, Buried, Submittable, HandoffOf, Happen;
    if Unburied(runs) {
      forall es | OnlySubmits(es) ensures NoDuplicates(AdmitAll(runs, es)) {
        AtMostOneRun(runs, es);
      }
    } else {
      var q: Request :| Submittable(q) && Buried(runs, HandoffOf(q));
      BuriedAdmitsAgain(runs, q);
      OneEvent(runs, Submit(q, false, NoFault));
      assert OnlySubmits([Submit(q, false, NoFault)]);
    }
  }

  // ------------------------------------------------------- rows that are updated

  /** Where a row of the touched table came from. */
  function Origin(n: nat, i: nat, j: int): int {
    if j < i then j else if j < n - 1 then j + 1 else i
  }

  lemma TouchedRow(runs: seq<Run>, i: nat, j: nat)
    requires i < |runs| && j < |runs|
    ensures |Touched(runs, i)| == |runs| && 0 <= Origin(|runs|, i, j) < |runs|
    ensures Touched(runs, i)[j] == runs[Origin(|runs|, i, j)]
  {
  }

  lemma TouchKeepsUnique(runs: seq<Run>, i: nat)
    requires NoDuplicates(runs) && i < |runs|
    ensures NoDuplicates(Touched(runs, i))
  {
    hide Touched;
    var now := Touched(runs, i);
    TouchedRow(runs, i, 0);
    forall h, j, k | IsRun(now, j, h) && IsRun(now, k, h) ensures j == k {
      TouchedRow(runs, i, j);
      TouchedRow(runs, i, k);
      assert IsRun(runs, Origin(|runs|, i, j), h) && IsRun(runs, Origin(|runs|, i, k), h);
    }
  }

  lemma TouchKeepsSparse(runs: seq<Run>, i: nat)
    requires Sparse(runs) && i < |runs|
    ensures Sparse(Touched(runs, i))
  {
    hide Touched, Submittable, HandoffOf;
    var now := Touched(runs, i);
    TouchedRow(runs, i, 0);
    forall q: Request, j, k | Submittable(q) && IsProjection(now, j, HandoffOf(q)) && IsProjection(now, k, HandoffOf(q)) ensures j == k {
      TouchedRow(runs, i, j);
      TouchedRow(runs, i, k);
      assert IsProjection(runs, Origin(|runs|, i, j), HandoffOf(q)) && IsProjection(runs, Origin(|runs|, i, k), HandoffOf(q));
    }
  }

  /** One projection cannot bury a run, wherever it stands. */
  lemma OneCannotBury(runs: seq<Run>, h: Handoff, i: nat)
    requires IsRun(runs, i, h)
    requires forall j, k :: IsProjection(runs, j, h) && IsProjection(runs, k, h) ==> j == k
    ensures Receipts(runs, h) != []
  {
    var first := LastRow(runs, h, |runs|).value;
    assert IsRun(runs, first, h) || IsProjection(runs, first, h);
    var second := LastRow(runs, h, first);
    if second.Some? {
      assert IsRun(runs, second.value, h) || IsProjection(runs, second.value, h);
    }
  }

  lemma SparseIsUnburied(runs: seq<Run>)
    requires Sparse(runs)
    ensures Unburied(runs)
  {
    hide Receipts, Submittable, HandoffOf, IsRun, IsProjection;
    forall q: Request | Submittable(q) ensures !Buried(runs, HandoffOf(q)) {
      if Buried(runs, HandoffOf(q)) {
        var i :| IsRun(runs, i, HandoffOf(q));
        RunIndex(runs, i, HandoffOf(q));
        OneCannotBury(runs, HandoffOf(q), i);
      }
    }
  }

  lemma RunIndex(runs: seq<Run>, i: int, h: Handoff)
    requires IsRun(runs, i, h)
    ensures 0 <= i < |runs|
  {
  }

  lemma SubmitKeepsSparse(runs: seq<Run>, q: Request, full: bool, fault: Fault)
    requires Sparse(runs)
    ensures Sparse(Admit(runs, q, full, fault).runs)
  {
    hide Submittable, HandoffOf, NewRun, Receipts, Admit, WellFormed, Typed, IsRun, IsProjection;
    NewHandoff(q);
    AdmitAdds(runs, q, full, fault);
    var now := Admit(runs, q, full, fault).runs;
    if now != runs {
      forall p: Request, j, k | Submittable(p) && IsProjection(now, j, HandoffOf(p)) && IsProjection(now, k, HandoffOf(p)) ensures j == k {
        RunsInMore(runs, NewRun(q), HandoffOf(p), j);
        RunsInMore(runs, NewRun(q), HandoffOf(p), k);
      }
    }
  }

  lemma {:induction false} UpdatedKeepsUnique(runs: seq<Run>, es: seq<Event>)
    requires NoDuplicates(runs) && Sparse(runs)
    ensures var now := AdmitAll(runs, es); NoDuplicates(now) && Sparse(now)
    decreases |es|
  {
    hide Admit, NoDuplicates, Sparse, Touched, Submittable, Buried, HandoffOf;
    if es != [] {
      var n := |es| - 1;
      UpdatedKeepsUnique(runs, es[..n]);
      var now := AdmitAll(runs, es[..n]);
      match es[n]
      case Submit(q, full, fault) =>
        SparseIsUnburied(now);
        SubmitKeepsUnique(now, q, full, fault);
        SubmitKeepsSparse(now, q, full, fault);
      case Touch(i) =>
        if i < |now| {
          TouchKeepsUnique(now, i);
          TouchKeepsSparse(now, i);
        }
    }
  }

  /** With its two newest rows projections the lookup finds nothing. */
  lemma TwoOnTop(runs: seq<Run>, h: Handoff)
    requires |runs| >= 2 && IsProjection(runs, |runs| - 1, h) && IsProjection(runs, |runs| - 2, h)
    ensures Receipts(runs, h) == []
  {
  }

  /** Touching two projections puts them on top and loses no run. */
  lemma TouchBuries(runs: seq<Run>, h: Handoff, j: nat, k: nat, i: nat)
    requires j < k && IsProjection(runs, j, h) && IsProjection(runs, k, h) && IsRun(runs, i, h)
    ensures Buried(Touched(Touched(runs, j), k - 1), h)
  {
    var once := Touched(runs, j);
    assert once[k - 1] == runs[k] && once[|runs| - 1] == runs[j];
    var i' := if i < j then i else i - 1;
    assert once[i'] == runs[i];
    var now := Touched(once, k - 1);
    assert now[|runs| - 1] == runs[k] && now[|runs| - 2] == runs[j];
    TwoOnTop(now, h);
    var i'' := if i' < k - 1 then i' else i' - 1;
    assert now[i''] == runs[i];
    assert IsRun(now, i'', h);
  }

  /** After a submission its identity has a run, seen or not. */
  lemma SubmitLeavesRun(runs: seq<Run>, q: Request)
    requires NoDuplicates(runs) && Submittable(q)
    ensures var now := Happen(runs, Submit(q, false, NoFault));
            && runs <= now && (exists i :: IsRun(now, i, HandoffOf(q)))
  {
    hide WellFormed, HandoffOf, NewRun, SameSubmission;
    NewHandoff(q);
    var h := HandoffOf(q);
    var now := Happen(runs, Submit(q, false, NoFault));
    var found := Receipts(runs, h);
    hide Receipts;
    forall a, b | 0 <= a < |found| && 0 <= b < |found| ensures found[a] == found[b] {
      assert IsRun(runs, found[a], h) && IsRun(runs, found[b], h);
    }
    if found != [] {
      assert IsRun(runs, found[0], h);
      assert now == runs;
    } else {
      assert now == runs + [NewRun(q)];
      assert IsRun(now, |runs|, h);
    }
  }

  lemma ThreeEvents(runs: seq<Run>, e: Event, f: Event, g: Event)
    ensures AdmitAll(runs, [e, f, g]) == Happen(Happen(Happen(runs, e), f), g)
  {
    hide Happen;
    assert [e][..0] == [] && [e, f][..1] == [e] && [e, f, g][..2] == [e, f];
    assert AdmitAll(runs, [e]) == Happen(runs, e);
    assert AdmitAll(runs, [e, f]) == Happen(AdmitAll(runs, [e]), f);
  }

  lemma FourEvents(runs: seq<Run>, e: Event, f: Event, g: Event, h: Event)
    ensures AdmitAll(runs, [e, f, g, h]) == Happen(Happen(Happen(Happen(runs, e), f), g), h)
  {
    hide Happen;
    assert [e, f, g, h][..3] == [e, f, g];
    ThreeEvents(runs, e, f, g);
  }

  lemma HappenTouches(runs: seq<Run>, j: nat, k: nat)
    requires j < k < |runs|
    ensures Happen(Happen(runs, Touch(j)), Touch(k - 1)) == TouchBoth(runs, j, k)
  {
  }

  function TouchBoth(runs: seq<Run>, j: nat, k: nat): seq<Run>
    requires j < k < |runs|
  {
    Touched(Touched(runs, j), k - 1)
  }

  /** Two projections of an identity are enough: submit, update both, submit again. */
  lemma TwoProjectionsDuplicate(runs: seq<Run>, q: Request, j: nat, k: nat) returns (es: seq<Event>)
    requires NoDuplicates(runs) && Submittable(q) && j < k
    requires IsProjection(runs, j, HandoffOf(q)) && IsProjection(runs, k, HandoffOf(q))
    ensures !NoDuplicates(AdmitAll(runs, es))
  {
    hide Submittable, HandoffOf, Buried, NoDuplicates, TouchBoth, Happen;
    var h := HandoffOf(q);
    var sub := Submit(q, false, NoFault);
    SubmitLeavesRun(runs, q);
    var once := Happen(runs, sub);
    var i :| IsRun(once, i, h);
    assert once[j] == runs[j] && once[k] == runs[k];
    TouchBothBuries(once, h, j, k, i);
    HappenTouches(once, j, k);
    BuriedAdmitsAgain(TouchBoth(once, j, k), q);
    es := [sub, Touch(j), Touch(k - 1), sub];
    FourEvents(runs, sub, Touch(j), Touch(k - 1), sub);
  }

  lemma TouchBothBuries(runs: seq<Run>, h: Handoff, j: nat, k: nat, i: nat)
    requires j < k && IsProjection(runs, j, h) && IsProjection(runs, k, h) && IsRun(runs, i, h)
    ensures Buried(TouchBoth(runs, j, k), h)
  {
    hide Touched;
    TouchBuries(runs, h, j, k, i);
  }

  /** Rows move when they are updated. If updates may come in between, uniqueness
      has a stricter exact condition: no sequence of submissions and row updates
      makes a second run exactly if no identity that can be submitted has two
      projections. */
  lemma AtMostOneUpdatedIff(runs: seq<Run>)
    requires NoDuplicates(runs)
    ensures Sparse(runs) <==> forall es :: NoDuplicates(AdmitAll(runs, es))
  {
    hide NoDuplicates, AdmitAll, Submittable, HandoffOf, IsRun;
    if Sparse(runs) {
      forall es ensures NoDuplicates(AdmitAll(runs, es)) {
        UpdatedKeepsUnique(runs, es);
      }
    } else {
      var q: Request, j, k :| Submittable(q) && IsProjection(runs, j, HandoffOf(q)) && IsProjection(runs, k, HandoffOf(q)) && j != k;
      var es := TwoProjectionsDuplicate(runs, q, if j < k then j else k, if j < k then k else j);
    }
  }

  // --------------------------------------------------- what a submission amounts to

  /** The entry is a string that is not blank. */
  predicate Given(q: Request, k: Key) {
    k in q.metadata && q.metadata[k].Str? && TrimSpace(q.metadata[k].text) != []
  }

  function ProfileBytes(p: Profile): Text {
    if p == Processor then [112, 114, 111, 99, 101, 115, 115, 111, 114]
    else [114, 101, 99, 111, 110, 99, 105, 108, 101, 114]
  }

  function SourceBytes(): Text {
    [105, 110, 116, 101, 114, 110, 97, 108, 95, 105, 110, 103, 101, 115, 116, 105, 111, 110, 95, 104, 97, 110, 100, 111, 102, 102]
  }

  lemma NamesAre()
    ensures ProcessorName() == ProfileBytes(Processor) && ReconcilerName() == ProfileBytes(Reconciler)
    ensures HandoffSource() == SourceBytes()
  {
    SourceIs();
    hide HandoffSource, SourceBytes;
  }

  lemma SourceIs()
    ensures HandoffSource() == SourceBytes()
  {
  }

  function At(m: Metadata, k: Key): Option<Value> {
    if k in m then Some(m[k]) else None
  }

  /** One entry of a normalised submission, read off the submission itself. */
  function Entry(q: Request, k: Key): Option<Value> {
    match k
    case AgentProfile => Some(Str(ProfileBytes(q.profile)))
    case AgentRole => if Given(q, k) then At(q.metadata, k) else Some(Str(ProfileBytes(q.profile)))
    case RequestSource => if Given(q, k) then At(q.metadata, k) else Some(Str(SourceBytes()))
    case RequestId => if Given(q, k) then Some(Str(TrimSpace(q.metadata[k].text))) else At(q.metadata, k)
    case RequestKind => if Given(q, k) then Some(Str(TrimSpace(q.metadata[k].text))) else At(q.metadata, k)
    case _ => At(q.metadata, k)
  }

  lemma EntriesDefaulted(q: Request, k: Key)
    requires Ingests(q.profile) && k != RequestId && k != RequestKind
    ensures At(Defaulted(q), k) == Entry(q, k)
  {
    NamesAre();
    hide TrimSpace, ProcessorName, ReconcilerName, HandoffSource;
  }

  lemma EntriesTyped(q: Request, k: Key)
    requires Submittable(q)
    ensures At(TypedMetadata(q), k) == Entry(q, k)
  {
    hide TrimSpace, Defaulted;
    if k != RequestId && k != RequestKind {
      EntriesDefaulted(q, k);
    }
  }

  /** The same submission, entry by entry; only the fingerprint entry is ignored. */
  ghost predicate Repeats(p: Request, q: Request) {
    && TrimSpace(p.owner) == TrimSpace(q.owner) && p.prompt == q.prompt
    && forall k :: k != FingerprintKey ==> Entry(p, k) == Entry(q, k)
  }

  /** The submission repeats what the row stores: its stamp or, where it has none,
      the owner, the prompt and the entries that are no extras. */
  ghost predicate RepeatsStored(run: Run, q: Request) {
    match run.stamp
    case Some(p) =>
      && p.owner == TrimSpace(q.owner) && p.prompt == q.prompt
      && (forall k :: At(p.metadata, k) == if k == FingerprintKey then None else Entry(q, k))
    case None =>
      && TrimSpace(run.owner) == TrimSpace(q.owner) && run.prompt == q.prompt
      && (forall k: Key :: !k.Extra? && k != FingerprintKey ==> At(run.metadata, k) == Entry(q, k))
  }

  lemma SameMaps(m: Metadata, n: Metadata)
    ensures m == n <==> forall k :: At(m, k) == At(n, k)
  {
    if forall k :: At(m, k) == At(n, k) {
      forall k ensures (k in m <==> k in n) && (k in m ==> m[k] == n[k]) {
        assert At(m, k) == At(n, k);
      }
    }
  }

  lemma SameContract(m: Metadata, n: Metadata)
    ensures ContractPart(m) == ContractPart(n) <==> forall k: Key :: !k.Extra? && k != FingerprintKey ==> At(m, k) == At(n, k)
  {
    SameMaps(ContractPart(m), ContractPart(n));
    assert forall k :: At(ContractPart(m), k) == if IsContractKey(k) then At(m, k) else None;
    assert forall k :: At(ContractPart(n), k) == if IsContractKey(k) then At(n, k) else None;
  }

  /** What a fingerprint comparison decides. */
  lemma SameMeansRepeats(run: Run, q: Request)
    requires Submittable(q)
    ensures SameSubmission(run, q) <==> RepeatsStored(run, q)
  {
    hide Submittable, TypedMetadata, Entry, TrimSpace, ContractPart, At;
    forall k ensures At(TypedMetadata(q), k) == Entry(q, k) {
      EntriesTyped(q, k);
    }
    match run.stamp
    case Some(p) =>
      var m := Without(TypedMetadata(q), FingerprintKey);
      SameMaps(p.metadata, m);
      forall k ensures At(m, k) == if k == FingerprintKey then None else Entry(q, k) {
        AtWithout(TypedMetadata(q), k);
      }
    case None => SameContract(run.metadata, TypedMetadata(q));
  }

  lemma AtWithout(m: Metadata, k: Key)
    ensures At(Without(m, FingerprintKey), k) == if k == FingerprintKey then None else At(m, k)
  {
  }

  /** A fresh row stores the normalised submission. */
  lemma NewRunStores(q: Request)
    requires WellFormed(q)
    ensures var run := NewRun(q);
            && run.owner == TrimSpace(q.owner) && run.profile == q.profile && run.prompt == q.prompt && !run.scoped
            && (forall k :: At(run.metadata, k) == Entry(q, k))
            && (RequestId !in q.metadata ==> run.handoff == None && run.stamp == None)
            && (RequestId in q.metadata ==> run.handoff.Some? && HasIdentity(run.handoff.value, q))
  {
    forall k ensures At(NewRun(q).metadata, k) == Entry(q, k) {
      NewEntry(q, k);
    }
    if Typed(q) {
      HandoffMeans(q);
    }
    hide TrimSpace, Defaulted, TypedMetadata, FullPrint, HandoffOf, HasIdentity, WellFormed, At, Entry;
  }

  /** Its fingerprint is met by exactly the submissions that repeat it. */
  lemma NewStampMeans(q: Request, p: Request)
    requires Submittable(q) && Submittable(p)
    ensures SameSubmission(NewRun(q), p) <==> Repeats(q, p)
  {
    NewStamp(q);
    SameMeansRepeats(NewRun(q), p);
    SameMeansRepeats(NewRun(q), q);
    hide TrimSpace, TypedMetadata, FullPrint, NewRun, Submittable, RepeatsStored, Repeats;
    StampRepeats(NewRun(q), q, p);
  }

  lemma NewEntry(q: Request, k: Key)
    requires WellFormed(q)
    ensures At(NewRun(q).metadata, k) == Entry(q, k)
  {
    hide TrimSpace, Defaulted, TypedMetadata, FullPrint, HandoffOf;
    if Typed(q) {
      EntriesTyped(q, k);
    } else if k == RequestId || k == RequestKind {
      UntypedHasNone(q, k);
    } else {
      EntriesDefaulted(q, k);
    }
  }

  lemma UntypedHasNone(q: Request, k: Key)
    requires WellFormed(q) && !Typed(q) && (k == RequestId || k == RequestKind)
    ensures At(Defaulted(q), k) == None == Entry(q, k)
  {
    hide TrimSpace, ProcessorName, ReconcilerName, HandoffSource;
  }

  lemma StampRepeats(run: Run, q: Request, p: Request)
    requires run.stamp.Some? && RepeatsStored(run, q)
    ensures RepeatsStored(run, p) <==> Repeats(q, p)
  {
    hide Entry, TrimSpace;
  }

  /** The identity is the trimmed owner, the profile and the two trimmed handoff entries. */
  predicate HasIdentity(h: Handoff, q: Request) {
    && h.owner == TrimSpace(q.owner) && h.profile == q.profile
    && RequestId in q.metadata && q.metadata[RequestId].Str? && h.id == TrimSpace(q.metadata[RequestId].text)
    && RequestKind in q.metadata && q.metadata[RequestKind].Str? && h.kind == TrimSpace(q.metadata[RequestKind].text)
  }

  lemma HandoffMeans(q: Request)
    requires Submittable(q)
    ensures HasIdentity(HandoffOf(q), q)
  {
    hide TrimSpace;
  }

  /** An accepted typed submission is answered by a receipt of its own identity. */
  lemma AcceptedRunIsOwn(runs: seq<Run>, q: Request, full: bool, fault: Fault)
    requires RequestId in q.metadata && Admit(runs, q, full, fault).response.Accepted?
    ensures var a := Admit(runs, q, full, fault);
            && a.response.index < |a.runs| && !a.runs[a.response.index].scoped
            && a.runs[a.response.index].handoff.Some? && HasIdentity(a.runs[a.response.index].handoff.value, q)
  {
    hide TrimSpace, WellFormed, HandoffOf, SameSubmission, NewRun, HasIdentity, Receipts;
    HandoffMeans(q);
    NewHandoff(q);
  }

  /** No row, run or projection, is of the submission's identity. */
  ghost predicate Unknown(runs: seq<Run>, q: Request) {
    forall i :: 0 <= i < |runs| && runs[i].handoff.Some? ==> !HasIdentity(runs[i].handoff.value, q)
  }

  /** A well-formed submission of an unknown identity becomes a run, unless it is
      a processor's at capacity or the start fails. */
  lemma FreshIsAdmitted(runs: seq<Run>, q: Request, full: bool, fault: Fault)
    requires WellFormed(q) && (fault == NoFault || fault == StartFault)
    requires RequestId in q.metadata ==> Unknown(runs, q)
    ensures var a := Admit(runs, q, full, fault);
            && (a.response == TooMany <==> q.profile == Processor && full)
            && (a.response == ServerError <==> fault == StartFault && !(q.profile == Processor && full))
            && (a.response == TooMany || a.response == ServerError ==> a.runs == runs)
            && (a.response != TooMany && a.response != ServerError ==>
                  a.response == Accepted(|runs|) && a.runs == runs + [NewRun(q)])
  {
    hide TrimSpace, WellFormed, HandoffOf, SameSubmission, NewRun, HasIdentity, LastRow;
    if Typed(q) {
      HandoffMeans(q);
      assert forall i :: 0 <= i < |runs| ==> runs[i].handoff != Some(HandoffOf(q));
    }
  }

  /** A fingerprint or lookup that fails is a server error for a typed submission,
      and is not even reached by an untyped one. */
  lemma EarlyFaultFails(runs: seq<Run>, q: Request, full: bool, fault: Fault)
    requires WellFormed(q) && (fault == FingerprintFault || fault == LookupFault)
    ensures RequestId in q.metadata ==> Admit(runs, q, full, fault) == Result(runs, ServerError)
    ensures RequestId !in q.metadata ==> Admit(runs, q, full, fault) == Admit(runs, q, full, NoFault)
  {
    hide TrimSpace, WellFormed, HandoffOf, SameSubmission, NewRun, Receipts;
  }

  /** The submission is refused as ambiguous exactly if the two rows of its identity
      updated last are both runs. */
  lemma AmbiguousIff(runs: seq<Run>, q: Request, full: bool, fault: Fault)
    requires Submittable(q) && (fault == NoFault || fault == StartFault)
    ensures Admit(runs, q, full, fault).response == Ambiguous <==>
              exists j, k :: TwoRunsOnTop(runs, HandoffOf(q), j, k)
  {
    hide TrimSpace, WellFormed, HandoffOf, SameSubmission, NewRun, LastRow;
    var h := HandoffOf(q);
    var first := LastRow(runs, h, |runs|);
    if first.Some? {
      var second := LastRow(runs, h, first.value);
      if second.Some? && |Receipts(runs, h)| == 2 {
        assert TwoRunsOnTop(runs, h, second.value, first.value);
      }
    }
  }

  ghost predicate TwoRunsOnTop(runs: seq<Run>, h: Handoff, j: int, k: int) {
    && j < k && IsRun(runs, j, h) && IsRun(runs, k, h)
    && forall m :: j < m < |runs| && runs[m].handoff == Some(h) ==> m == k
  }

  lemma {:induction false} SubmitsAppend(runs: seq<Run>, es: seq<Event>)
    requires OnlySubmits(es)
    ensures runs <= AdmitAll(runs, es)
    decreases |es|
  {
    hide Admit;
    if es != [] {
      var n := |es| - 1;
      assert es[n] in es && forall e :: e in es[..n] ==> e in es;
      SubmitsAppend(runs, es[..n]);
      AdmitAdds(AdmitAll(runs, es[..n]), es[n].q, es[n].full, es[n].fault);
    }
  }

  /** Submissions that differ in owner, profile, id or kind, each trimmed, are
      never answered by one run, whatever was admitted or updated in between. */
  lemma DifferentIdentitiesDifferentRuns(runs: seq<Run>, p: Request, full: bool, fault: Fault, es: seq<Event>, q: Request, full': bool, fault': Fault)
    requires Submittable(p) && Submittable(q)
    requires || TrimSpace(p.owner) != TrimSpace(q.owner) || p.profile != q.profile
             || Entry(p, RequestId) != Entry(q, RequestId) || Entry(p, RequestKind) != Entry(q, RequestKind)
    requires Admit(runs, p, full, fault).response.Accepted?
    requires Admit(AdmitAll(Admit(runs, p, full, fault).runs, es), q, full', fault').response.Accepted?
    ensures var a := Admit(runs, p, full, fault);
            var b := Admit(AdmitAll(a.runs, es), q, full', fault');
            && a.response.index < |a.runs| && b.response.index < |b.runs|
            && a.runs[a.response.index].handoff != b.runs[b.response.index].handoff
            && (OnlySubmits(es) ==> a.response.index != b.response.index)
  {
    hide Admit, AdmitAll, TrimSpace, WellFormed, NewRun, HasIdentity, Entry;
    var a := Admit(runs, p, full, fault);
    var now := AdmitAll(a.runs, es);
    AcceptedRunIsOwn(runs, p, full, fault);
    AcceptedRunIsOwn(now, q, full', fault');
    AdmitAdds(now, q, full', fault');
    if a.runs[a.response.index].handoff == Admit(now, q, full', fault').runs[Admit(now, q, full', fault').response.index].handoff {
      SameIdentityMeans(a.runs[a.response.index].handoff.value, p, q);
    }
    if OnlySubmits(es) {
      SubmitsAppend(a.runs, es);
    }
  }

  lemma SameIdentityMeans(h: Handoff, p: Request, q: Request)
    requires Submittable(p) && Submittable(q) && HasIdentity(h, p) && HasIdentity(h, q)
    ensures TrimSpace(p.owner) == TrimSpace(q.owner) && p.profile == q.profile
    ensures Entry(p, RequestId) == Entry(q, RequestId) && Entry(p, RequestKind) == Entry(q, RequestKind)
  {
    hide TrimSpace;
  }

  // -------------------------------------------------------------------- idempotence

  /** The tables over which admission stays unique: submissions alone need no run
      to be buried, row updates in between need sparse projections. */
  ghost predicate Sound(runs: seq<Run>, es: seq<Event>) {
    NoDuplicates(runs) && (Sparse(runs) || (Unburied(runs) && OnlySubmits(es)))
  }

  lemma SoundStays(runs: seq<Run>, es: seq<Event>)
    requires Sound(runs, es)
    ensures NoDuplicates(AdmitAll(runs, es)) && Unburied(AdmitAll(runs, es))
  {
    hide NoDuplicates, Sparse, Unburied, AdmitAll;
    if Sparse(runs) {
      UpdatedKeepsUnique(runs, es);
      SparseIsUnburied(AdmitAll(runs, es));
    } else {
      AtMostOneRun(runs, es);
    }
  }

  lemma RetryIsCompared(runs: seq<Run>, es: seq<Event>, i: nat, q: Request, full: bool, fault: Fault)
    requires Sound(runs, es) && IsRun(AdmitAll(runs, es), i, HandoffOf(q))
    requires Submittable(q) && (fault == NoFault || fault == StartFault)
    ensures var now := AdmitAll(runs, es);
            Admit(now, q, full, fault) == Result(now, if SameSubmission(now[i], q) then Accepted(i) else Conflict)
  {
    hide WellFormed, HandoffOf, SameSubmission, AdmitAll, Typed, Receipts, NoDuplicates, Buried;
    SoundStays(runs, es);
    FoundIsUnique(AdmitAll(runs, es), HandoffOf(q), i);
  }

  /** A typed submission whose identity has a run is answered by that run exactly
      if it repeats it, at capacity or not; otherwise it is a conflict. This covers
      runs stored before fingerprints existed. */
  lemma RetryIsDecided(runs: seq<Run>, es: seq<Event>, i: nat, q: Request, full: bool, fault: Fault)
    requires Sound(runs, es) && IsRun(AdmitAll(runs, es), i, HandoffOf(q))
    requires Submittable(q) && (fault == NoFault || fault == StartFault)
    ensures var now := AdmitAll(runs, es);
            && i < |now|
            && Admit(now, q, full, fault) == Result(now, if RepeatsStored(now[i], q) then Accepted(i) else Conflict)
  {
    hide Sound, Submittable, HandoffOf, SameSubmission, AdmitAll, RepeatsStored, Admit;
    SameMeansRepeats(AdmitAll(runs, es)[i], q);
    RetryIsCompared(runs, es, i, q, full, fault);
  }

  lemma NewStamp(q: Request)
    requires Typed(q)
    ensures NewRun(q).stamp == Some(FullPrint(q)) && NewRun(q).handoff == Some(HandoffOf(q)) && !NewRun(q).scoped
  {
    hide HandoffOf, TypedMetadata, Defaulted, FullPrint, TrimSpace;
  }

  lemma {:induction false} RowsPersist(runs: seq<Run>, es: seq<Event>, run: Run)
    requires run in runs
    ensures run in AdmitAll(runs, es)
    decreases |es|
  {
    hide Admit, Touched;
    if es != [] {
      var n := |es| - 1;
      RowsPersist(runs, es[..n], run);
      var now := AdmitAll(runs, es[..n]);
      match es[n]
      case Submit(q, full, fault) => AdmitAdds(now, q, full, fault);
      case Touch(i) =>
        if i < |now| {
          TouchKeepsRows(now, i, run);
        }
    }
  }

  lemma TouchKeepsRows(runs: seq<Run>, i: nat, run: Run)
    requires i < |runs| && run in runs
    ensures run in Touched(runs, i)
  {
    var j :| 0 <= j < |runs| && runs[j] == run;
    var now := Touched(runs, i);
    assert now[if j < i then j else if j == i then |runs| - 1 else j - 1] == run;
  }

  lemma SameEntriesSameHandoff(p: Request, q: Request)
    requires Submittable(p) && Submittable(q)
    requires TrimSpace(p.owner) == TrimSpace(q.owner) && p.profile == q.profile
    requires Entry(p, RequestId) == Entry(q, RequestId) && Entry(p, RequestKind) == Entry(q, RequestKind)
    ensures HandoffOf(p) == HandoffOf(q)
  {
    hide TrimSpace;
  }

  /** Admitted once, a submission is settled for good: whatever is submitted in
      between and however full the processors are, a later submission with the
      same identity returns the same run if it is equal after normalisation and
      conflicts otherwise. */
  lemma AdmissionIsIdempotent(runs: seq<Run>, p: Request, full: bool, mid: seq<Event>, q: Request, full': bool, fault': Fault)
      returns (i: nat)
    requires Submittable(p) && Submittable(q)
    requires TrimSpace(p.owner) == TrimSpace(q.owner) && p.profile == q.profile
    requires Entry(p, RequestId) == Entry(q, RequestId) && Entry(p, RequestKind) == Entry(q, RequestKind)
    requires fault' == NoFault || fault' == StartFault
    requires Admit(runs, p, full, NoFault) == Result(runs + [NewRun(p)], Accepted(|runs|)) && Sound(runs + [NewRun(p)], mid)
    ensures var now := AdmitAll(runs + [NewRun(p)], mid);
            && i < |now| && now[i] == NewRun(p)
            && Admit(now, q, full', fault') == Result(now, if Repeats(p, q) then Accepted(i) else Conflict)
    ensures OnlySubmits(mid) && Unburied(runs + [NewRun(p)]) ==> i == |runs|
  {
    NewHandoff(p);
    NewStampMeans(p, q);
    SameEntriesSameHandoff(p, q);
    SameMeansRepeats(NewRun(p), q);
    hide TrimSpace, Repeats, RepeatsStored, Entry, SameSubmission, Submittable, HandoffOf, TypedMetadata, Defaulted, FullPrint, AdmitAll, NewRun, Receipts, NoDuplicates, Sparse, Unburied, Admit;
    var now := AdmitAll(runs + [NewRun(p)], mid);
    if OnlySubmits(mid) && Unburied(runs + [NewRun(p)]) {
      AtMostOneRun(runs + [NewRun(p)], mid);
      i := |runs|;
      assert now[i] == (runs + [NewRun(p)])[i];
    } else {
      assert NewRun(p) == (runs + [NewRun(p)])[|runs|];
      RowsPersist(runs + [NewRun(p)], mid, NewRun(p));
      i :| i < |now| && now[i] == NewRun(p);
    }
    RetryIsDecided(runs + [NewRun(p)], mid, i, q, full', fault');
  }

  /** Equal fingerprints mean equal owner, prompt and normalised metadata; the
      fingerprint entry itself never takes part. */
  lemma PrintIgnoresItself(q: Request, v: Value)
    ensures FullPrint(q.(metadata := q.metadata[FingerprintKey := v])) == FullPrint(q)
  {
    hide TrimSpace, Ascii;
    var q' := q.(metadata := q.metadata[FingerprintKey := v]);
    assert Defaulted(q') == Defaulted(q)[FingerprintKey := v];
    assert TypedMetadata(q') == TypedMetadata(q)[FingerprintKey := v];
    assert Without(TypedMetadata(q'), FingerprintKey) == Without(TypedMetadata(q), FingerprintKey);
  }

  // ------------------------------------------------------------------ the handler

  /** The loop that copies all metadata but the fingerprint entry. */
  method CopyWithout(m: Metadata, skip: Key) returns (out: Metadata)
    ensures out == Without(m, skip)
  {
    out := map[];
    var todo := m.Keys;
    while todo != {}
      invariant todo <= m.Keys
      invariant forall k :: k in out <==> k in m && k !in todo && k != skip
      invariant forall k :: k in out ==> out[k] == m[k]
      decreases |todo|
    {
      var k :| k in todo;
      if k != skip {
        out := out[k := m[k]];
      }
      todo := todo - {k};
    }
  }

  /** The lookup: fetch the two rows of the identity updated last, then drop
      projections. */
  method ListHandoff(runs: seq<Run>, h: Handoff) returns (found: seq<nat>)
    ensures found == Receipts(runs, h)
  {
    var objects: seq<nat> := [];
    var n: nat := |runs|;
    while n > 0 && |objects| < 2
      invariant n <= |runs| && |objects| <= 2
      invariant |objects| == 0 ==> LastRow(runs, h, |runs|) == LastRow(runs, h, n)
      invariant |objects| >= 1 ==> LastRow(runs, h, |runs|) == Some(objects[0]) && n <= objects[0]
      invariant |objects| == 1 ==> LastRow(runs, h, objects[0]) == LastRow(runs, h, n)
      invariant |objects| == 2 ==> LastRow(runs, h, objects[0]) == Some(objects[1])
      decreases n
    {
      n := n - 1;
      if runs[n].handoff == Some(h) {
        objects := objects + [n];
      }
    }
    found := [];
    for k := 0 to |objects|
      invariant forall j :: 0 <= j < |objects| ==> objects[j] < |runs|
      invariant k == 0 ==> found == []
      invariant k == 1 ==> found == Unscoped(runs, objects[0])
      invariant k == 2 ==> found == Unscoped(runs, objects[0]) + Unscoped(runs, objects[1])
    {
      if !runs[objects[k]].scoped {
        found := found + [objects[k]];
      }
    }
  }

  class Handler {
    var runs: seq<Run>

    constructor (runs: seq<Run>)
      ensures this.runs == runs
    {
      this.runs := runs;
    }

    /** HandleInternalRunSubmission, inside its critical section. */
    method Submit(q: Request, full: bool, fault: Fault) returns (response: Response)
      modifies this
      ensures Result(runs, response) == Admit(old(runs), q, full, fault)
      ensures response == BadRequest <==>
                || TrimSpace(q.owner) == [] || TrimSpace(q.prompt) == [] || q.profile !in {Processor, Reconciler}
                || (RequestId in q.metadata && RequestKind !in q.metadata) || (RequestId !in q.metadata && RequestKind in q.metadata)
                || (RequestId in q.metadata && !Given(q, RequestId)) || (RequestKind in q.metadata && !Given(q, RequestKind))
    {
      hide TrimSpace, Receipts, Ascii;
      if TrimSpace(q.owner) == [] || TrimSpace(q.prompt) == [] || !Ingests(q.profile) {
        return BadRequest;
      }
      var hasId, hasKind := RequestId in q.metadata, RequestKind in q.metadata;
      var id, kind := StringAt(q.metadata, RequestId), StringAt(q.metadata, RequestKind);
      if hasId != hasKind || (hasId && (id == [] || kind == [])) {
        return BadRequest;
      }
      if hasId {
        response := SubmitTyped(q, full, fault);
        return;
      }
      if q.profile == Processor && full {
        return TooMany;
      }
      if fault == StartFault {
        return ServerError;
      }
      runs := runs + [NewRun(q)];
      return Accepted(|runs| - 1);
    }

    method SubmitTyped(q: Request, full: bool, fault: Fault) returns (response: Response)
      requires WellFormed(q) && Typed(q)
      modifies this
      ensures response != BadRequest
      ensures Result(runs, response) == Admit(old(runs), q, full, fault)
    {
      hide TrimSpace, Receipts, WellFormed, HandoffOf, TypedMetadata, ContractPart, Without;
      var metadata := TypedMetadata(q);
      if fault == FingerprintFault {
        return ServerError;
      }
      var copy := CopyWithout(metadata, FingerprintKey);
      var fingerprint := Print(TrimSpace(q.owner), q.prompt, copy);
      if fault == LookupFault {
        return ServerError;
      }
      var existing := ListHandoff(runs, HandoffOf(q));
      if |existing| > 1 {
        return Ambiguous;
      }
      if |existing| == 1 {
        var run := runs[existing[0]];
        var recorded := LegacyPrint(run.owner, run.prompt, run.metadata);
        if run.stamp.Some? {
          recorded := run.stamp.value;
        } else {
          fingerprint := LegacyPrint(q.owner, q.prompt, metadata);
        }
        return if recorded != fingerprint then Conflict else Accepted(existing[0]);
      }
      if q.profile == Processor && full {
        return TooMany;
      }
      if fault == StartFault {
        return ServerError;
      }
      runs := runs + [Run(Some(HandoffOf(q)), TrimSpace(q.owner), q.profile, q.prompt, metadata, Some(fingerprint), false)];
      return Accepted(|runs| - 1);
    }
  }
}
