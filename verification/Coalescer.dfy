/** Bounded coalescing of child settlements into one parent wake. */
module Coalescer {
  import opened Updates

  datatype Reason = AllComplete | Quiescence | Timeout | Tombstone

  datatype Batch = Batch(completed: set<Text>, tombstones: map<Text, Text>, reason: Reason)

  /** `timer` and `deadline` say whether that timer is armed; `quiescing` and
      `expiring` count callbacks that have started and wait for the mutex, which
      no Stop can take back. `out` is what was ever sent on the channel. */
  datatype State = State(
    want: int,
    completed: set<Text>,
    tombstones: map<Text, Text>,
    fired: bool,
    timer: bool,
    deadline: bool,
    quiescing: nat,
    expiring: nat,
    out: seq<Batch>)

  datatype Label =
    | Complete(id: Text)
    | Fail(id: Text, cause: Text)
    | TimerElapses
    | DeadlineElapses
    | RunQuiescence
    | RunTimeout
    | Stop

  function New(want: int, bounded: bool): State {
    State(want, {}, map[], false, false, bounded, 0, 0, [])
  }

  function Fire(s: State, reason: Reason): State {
    if s.fired then s
    else
      var why := if reason == AllComplete && s.tombstones != map[] then Tombstone else reason;
      s.(fired := true, timer := false, deadline := false,
         out := s.out + [Batch(s.completed - s.tombstones.Keys, s.tombstones, why)])
  }

  predicate Settled(s: State) {
    s.want > 0 && |s.completed| >= s.want
  }

  /** Fire when everyone settled, otherwise restart the quiescence window. */
  function FireOrDebounce(s: State, reason: Reason): State {
    if Settled(s) then Fire(s, reason) else s.(timer := true)
  }

  function Do(s: State, l: Label): State {
    match l
    case Complete(id) =>
      if s.fired || id in s.completed then s
      else FireOrDebounce(s.(completed := s.completed + {id}), AllComplete)
    case Fail(id, cause) =>
      if s.fired then s
      else FireOrDebounce(s.(completed := s.completed + {id}, tombstones := s.tombstones[id := cause]), Tombstone)
    case TimerElapses => if s.timer then s.(timer := false, quiescing := s.quiescing + 1) else s
    case DeadlineElapses => if s.deadline then s.(deadline := false, expiring := s.expiring + 1) else s
    case RunQuiescence => if s.quiescing > 0 then Fire(s.(quiescing := s.quiescing - 1), Quiescence) else s
    case RunTimeout => if s.expiring > 0 then Fire(s.(expiring := s.expiring - 1), Timeout) else s
    case Stop => s.(timer := false, deadline := false)
  }

  function Exec(s: State, ls: seq<Label>): State
    decreases |ls|
  {
    if ls == [] then s else Do(Exec(s, ls[..|ls| - 1]), ls[|ls| - 1])
  }

  // ------------------------------------------------------------- what was heard

  function Ids(l: Label): set<Text> {
    match l
    case Complete(id) => {id}
    case Fail(id, _) => {id}
    case _ => {}
  }

  function FailedIds(l: Label): set<Text> {
    match l
    case Fail(id, _) => {id}
    case _ => {}
  }

  /** The ids of all settlement events before the batch was sent. */
  function Heard(s: State, ls: seq<Label>): set<Text>
    decreases |ls|
  {
    if ls == [] then {}
    else
      var n := |ls| - 1;
      Heard(s, ls[..n]) + if Exec(s, ls[..n]).fired then {} else Ids(ls[n])
  }

  /** The ids of all failures before the batch was sent. */
  function HeardFailed(s: State, ls: seq<Label>): set<Text>
    decreases |ls|
  {
    if ls == [] then {}
    else
      var n := |ls| - 1;
      HeardFailed(s, ls[..n]) + if Exec(s, ls[..n]).fired then {} else FailedIds(ls[n])
  }

  ghost predicate BatchOk(s: State) {
    && |s.out| == 1
    && s.out[0].completed == s.completed - s.tombstones.Keys
    && s.out[0].tombstones == s.tombstones
    && (s.out[0].reason == AllComplete ==> s.tombstones == map[] && s.want > 0 && |s.completed| == s.want)
    && (s.out[0].reason == Tombstone ==> s.tombstones != map[] && s.want > 0 && |s.completed| == s.want)
    && (s.out[0].reason == Quiescence || s.out[0].reason == Timeout ==> s.want > 0 ==> |s.completed| < s.want)
  }

  ghost predicate Inv(s: State) {
    && s.tombstones.Keys <= s.completed
    && (s.fired ==> BatchOk(s))
    && (!s.fired ==> s.out == [] && (s.want > 0 ==> |s.completed| < s.want))
  }

  lemma CompleteKeepsInv(s: State, id: Text)
    requires Inv(s)
    ensures Inv(Do(s, Complete(id)))
  {
  }

  lemma FailKeepsInv(s: State, id: Text, cause: Text)
    requires Inv(s)
    ensures Inv(Do(s, Fail(id, cause)))
  {
    assert id in s.tombstones[id := cause];
  }

  lemma DoKeepsInv(s: State, l: Label)
    requires Inv(s)
    ensures Inv(Do(s, l))
  {
    match l
    case Complete(id) => CompleteKeepsInv(s, id);
    case Fail(id, cause) => FailKeepsInv(s, id, cause);
    case _ =>
  }

  lemma {:induction false} RunKeepsInv(want: int, bounded: bool, ls: seq<Label>)
    ensures Inv(Exec(New(want, bounded), ls)) && Exec(New(want, bounded), ls).want == want
    decreases |ls|
  {
    if ls != [] {
      RunKeepsInv(want, bounded, ls[..|ls| - 1]);
      DoKeepsInv(Exec(New(want, bounded), ls[..|ls| - 1]), ls[|ls| - 1]);
    }
  }

  lemma FireKeepsIds(s: State, reason: Reason)
    ensures Fire(s, reason).completed == s.completed && Fire(s, reason).tombstones == s.tombstones
    ensures FireOrDebounce(s, reason).completed == s.completed && FireOrDebounce(s, reason).tombstones == s.tombstones
  {
  }

  ghost predicate HearsExactly(s: State, l: Label, t: State) {
    && t.completed == s.completed + (if s.fired then {} else Ids(l))
    && t.tombstones.Keys == s.tombstones.Keys + (if s.fired then {} else FailedIds(l))
  }

  lemma CompleteHears(s: State, id: Text)
    ensures HearsExactly(s, Complete(id), Do(s, Complete(id)))
  {
    hide Fire, FireOrDebounce;
    FireKeepsIds(s.(completed := s.completed + {id}), AllComplete);
  }

  lemma FailHears(s: State, id: Text, cause: Text)
    ensures HearsExactly(s, Fail(id, cause), Do(s, Fail(id, cause)))
  {
    hide Fire, FireOrDebounce;
    FireKeepsIds(s.(completed := s.completed + {id}, tombstones := s.tombstones[id := cause]), Tombstone);
  }

  lemma DoHears(s: State, l: Label)
    ensures HearsExactly(s, l, Do(s, l))
  {
    match l
    case Complete(id) => CompleteHears(s, id);
    case Fail(id, cause) => FailHears(s, id, cause);
    case _ =>
  }

  lemma {:induction false} RunHears(want: int, bounded: bool, ls: seq<Label>)
    ensures var s := Exec(New(want, bounded), ls);
            && s.completed == Heard(New(want, bounded), ls)
            && s.tombstones.Keys == HeardFailed(New(want, bounded), ls)
    decreases |ls|
  {
    hide Do, Inv;
    if ls != [] {
      RunHears(want, bounded, ls[..|ls| - 1]);
      RunKeepsInv(want, bounded, ls[..|ls| - 1]);
      DoHears(Exec(New(want, bounded), ls[..|ls| - 1]), ls[|ls| - 1]);
    }
  }

  /** One batch at most, over every interleaving of events, timers and late
      callbacks. Its two parts are disjoint, together they are all ids settled
      before it was sent, and an id is a tombstone exactly if it failed by then. */
  lemma FiresOnceExactly(want: int, bounded: bool, ls: seq<Label>)
    ensures var s := Exec(New(want, bounded), ls);
            && |s.out| <= 1 && (s.fired <==> s.out != [])
            && (s.fired ==>
                  && s.out[0].completed !! s.out[0].tombstones.Keys
                  && s.out[0].completed + s.out[0].tombstones.Keys == Heard(New(want, bounded), ls)
                  && s.out[0].tombstones.Keys == HeardFailed(New(want, bounded), ls))
  {
    RunKeepsInv(want, bounded, ls);
    RunHears(want, bounded, ls);
  }

  /** A failure heard in time sets its id's cause; nothing else touches a cause. */
  lemma DoTombstones(s: State, l: Label)
    ensures Do(s, l).tombstones == if l.Fail? && !s.fired then s.tombstones[l.id := l.cause] else s.tombstones
  {
    match l
    case Fail(id, cause) =>
      FireKeepsIds(s.(completed := s.completed + {id}, tombstones := s.tombstones[id := cause]), Tombstone);
    case Complete(id) => FireKeepsIds(s.(completed := s.completed + {id}), AllComplete);
    case _ =>
  }

  /** The k-th event is the last failure of the id before the batch was sent. */
  ghost predicate LastFailure(s: State, ls: seq<Label>, k: nat, id: Text) {
    && k < |ls| && ls[k].Fail? && ls[k].id == id && !Exec(s, ls[..k]).fired
    && forall m :: k < m < |ls| && ls[m].Fail? && ls[m].id == id ==> Exec(s, ls[..m]).fired
  }

  /** A recorded cause is the one of that id's last failure in time. */
  lemma {:induction false} CauseIsLast(s: State, ls: seq<Label>, id: Text) returns (k: nat)
    requires id !in s.tombstones && id in Exec(s, ls).tombstones
    ensures LastFailure(s, ls, k, id) && ls[k].cause == Exec(s, ls).tombstones[id]
    decreases |ls|
  {
    hide Do;
    var n := |ls| - 1;
    var now := Exec(s, ls[..n]);
    DoTombstones(now, ls[n]);
    if ls[n].Fail? && ls[n].id == id && !now.fired {
      k := n;
    } else {
      k := CauseIsLast(s, ls[..n], id);
      assert forall m :: 0 <= m <= n ==> ls[..n][..m] == ls[..m];
    }
  }

  /** The batch reports each failed child with the cause of its last failure. */
  lemma BatchNamesLastCause(want: int, bounded: bool, ls: seq<Label>, id: Text) returns (k: nat)
    requires var out := Exec(New(want, bounded), ls).out; out != [] && id in out[0].tombstones
    ensures LastFailure(New(want, bounded), ls, k, id)
    ensures ls[k].cause == Exec(New(want, bounded), ls).out[0].tombstones[id]
  {
    hide Exec;
    RunKeepsInv(want, bounded, ls);
    k := CauseIsLast(New(want, bounded), ls, id);
  }

  /** What each reason says about the batch. A failure that is released by
      silence or by the deadline is not reported as a tombstone wake. */
  lemma ReasonMeans(want: int, bounded: bool, ls: seq<Label>)
    requires Exec(New(want, bounded), ls).fired
    ensures var s := Exec(New(want, bounded), ls);
            && |s.out| == 1
            && var b := s.out[0];
               && (b.reason == AllComplete <==> want > 0 && |b.completed| == want && b.tombstones == map[])
               && (b.reason == Tombstone <==> want > 0 && |b.completed| + |b.tombstones| == want && b.tombstones != map[])
  {
    RunKeepsInv(want, bounded, ls);
    var s := Exec(New(want, bounded), ls);
    var b := s.out[0];
    assert b.completed + b.tombstones.Keys == s.completed && |b.completed + b.tombstones.Keys| == |b.completed| + |b.tombstones.Keys|;
    assert |b.tombstones| == |b.tombstones.Keys|;
  }

  // --------------------------------------------------------- order independence

  /** The ids some event of the run settles, in whatever order. */
  ghost function Mentioned(ls: seq<Label>): set<Text> {
    set l, id | l in ls && id in Ids(l) :: id
  }

  ghost function MentionedFailed(ls: seq<Label>): set<Text> {
    set l, id | l in ls && id in FailedIds(l) :: id
  }

  lemma MentionedSnoc(ls: seq<Label>, l: Label)
    ensures Mentioned(ls + [l]) == Mentioned(ls) + Ids(l)
    ensures MentionedFailed(ls + [l]) == MentionedFailed(ls) + FailedIds(l)
  {
    var ms := ls + [l];
    assert forall x :: x in ms <==> x in ls || x == l;
  }

  /** Up to the step that fires, everything mentioned is heard. */
  lemma {:induction false} UnfiredHearsAll(s: State, ls: seq<Label>)
    requires ls == [] || !Exec(s, ls[..|ls| - 1]).fired
    ensures Heard(s, ls) == Mentioned(ls) && HeardFailed(s, ls) == MentionedFailed(ls)
    decreases |ls|
  {
    if ls != [] {
      var n := |ls| - 1;
      var ms := ls[..n];
      if ms != [] {
        assert Exec(s, ms) == Do(Exec(s, ms[..n - 1]), ms[n - 1]);
        FiredStays(Exec(s, ms[..n - 1]), ms[n - 1]);
      }
      UnfiredHearsAll(s, ms);
      assert ls == ms + [ls[n]];
      MentionedSnoc(ms, ls[n]);
    }
  }

  lemma FiredStays(s: State, l: Label)
    ensures s.fired ==> Do(s, l).fired
  {
  }

  /** The batch does not depend on the order of the events: two runs that fire
      with their last step and settle and fail the same children send the same
      ids, whatever timers, callbacks and stops happen in either. */
  lemma BatchIgnoresOrder(want: int, bounded: bool, ls: seq<Label>, ms: seq<Label>)
    requires Mentioned(ls) == Mentioned(ms) && MentionedFailed(ls) == MentionedFailed(ms)
    requires ls != [] && !Exec(New(want, bounded), ls[..|ls| - 1]).fired && Exec(New(want, bounded), ls).fired
    requires ms != [] && !Exec(New(want, bounded), ms[..|ms| - 1]).fired && Exec(New(want, bounded), ms).fired
    ensures var s, t := Exec(New(want, bounded), ls), Exec(New(want, bounded), ms);
            && |s.out| == |t.out| == 1
            && s.out[0].completed == t.out[0].completed
            && s.out[0].tombstones.Keys == t.out[0].tombstones.Keys
  {
    hide Exec;
    var s0 := New(want, bounded);
    UnfiredHearsAll(s0, ls);
    UnfiredHearsAll(s0, ms);
    FiresOnceExactly(want, bounded, ls);
    FiresOnceExactly(want, bounded, ms);
    RunKeepsInv(want, bounded, ls);
    RunKeepsInv(want, bounded, ms);
    RunHears(want, bounded, ls);
    RunHears(want, bounded, ms);
  }

  // ---------------------------------------------------------------- outstanding

  predicate Outstanding(s: State) {
    s.timer || s.deadline || s.quiescing > 0 || s.expiring > 0
  }

  lemma DoKeepsOutstanding(s: State, l: Label, bounded: bool)
    requires l != Stop && (!s.fired ==> (Outstanding(s) <==> bounded || s.completed != {}))
    ensures !Do(s, l).fired ==> (Outstanding(Do(s, l)) <==> bounded || Do(s, l).completed != {})
  {
    FiredStays(s, l);
  }

  /** Without Stop, an unfired coalescer has a timer armed or a callback pending
      exactly if it has a deadline or has heard an event. */
  lemma {:induction false} WakeIsPending(want: int, bounded: bool, ls: seq<Label>)
    requires Stop !in ls
    ensures var s := Exec(New(want, bounded), ls);
            !s.fired ==> (Outstanding(s) <==> bounded || Heard(New(want, bounded), ls) != {})
    decreases |ls|
  {
    RunHears(want, bounded, ls);
    if ls != [] {
      var n := |ls| - 1;
      WakeIsPending(want, bounded, ls[..n]);
      RunHears(want, bounded, ls[..n]);
      assert ls[n] in ls;
      DoKeepsOutstanding(Exec(New(want, bounded), ls[..n]), ls[n], bounded);
    }
  }

  /** No child settles any more; timers, callbacks and Stop may still happen. */
  ghost predicate Silent(ls: seq<Label>) {
    forall l :: l in ls ==> Ids(l) == {}
  }

  lemma SilentStepStaysDead(s: State, l: Label)
    requires !s.fired && !Outstanding(s) && Ids(l) == {}
    ensures var t := Do(s, l); !t.fired && !Outstanding(t) && t.completed == s.completed && t.out == s.out
  {
  }

  /** With nothing outstanding, silence is final. */
  lemma {:induction false} SilenceIsFinal(s: State, ls: seq<Label>)
    requires !s.fired && !Outstanding(s) && Silent(ls)
    ensures var t := Exec(s, ls); !t.fired && !Outstanding(t) && t.completed == s.completed && t.out == s.out
    decreases |ls|
  {
    hide Do;
    if ls != [] {
      var n := |ls| - 1;
      assert ls[n] in ls && forall l :: l in ls[..n] ==> l in ls;
      SilenceIsFinal(s, ls[..n]);
      SilentStepStaysDead(Exec(s, ls[..n]), ls[n]);
    }
  }

  lemma TwoSteps(s: State, k: Label, l: Label)
    ensures Exec(s, [k, l]) == Do(Do(s, k), l)
  {
    hide Do;
    assert [k][..0] == [] && [k, l][..1] == [k];
    assert Exec(s, [k]) == Do(s, k);
  }

  /** A timeout wake needs a deadline, and a quiescence wake an event. */
  lemma WakeNeedsCause(want: int, bounded: bool, ls: seq<Label>)
    requires Exec(New(want, bounded), ls).fired
    ensures var s := Exec(New(want, bounded), ls);
            && |s.out| == 1
            && (s.out[0].reason == Timeout ==> bounded)
            && (s.out[0].reason == Quiescence ==> Heard(New(want, bounded), ls) != {})
  {
    hide Exec;
    CausesHold(want, bounded, ls);
    RunHears(want, bounded, ls);
    RunKeepsInv(want, bounded, ls);
  }

  ghost predicate Caused(s: State, bounded: bool) {
    && (s.deadline || s.expiring > 0 ==> bounded)
    && (s.timer || s.quiescing > 0 ==> s.completed != {})
    && forall k :: 0 <= k < |s.out| ==>
         (s.out[k].reason == Timeout ==> bounded) && (s.out[k].reason == Quiescence ==> s.completed != {})
  }

  lemma DoKeepsCaused(s: State, l: Label, bounded: bool)
    requires Caused(s, bounded)
    ensures Caused(Do(s, l), bounded)
  {
  }

  lemma {:induction false} CausesHold(want: int, bounded: bool, ls: seq<Label>)
    ensures Caused(Exec(New(want, bounded), ls), bounded)
    decreases |ls|
  {
    hide Do, Caused;
    if ls == [] {
      NewIsCaused(want, bounded);
    } else {
      CausesHold(want, bounded, ls[..|ls| - 1]);
      DoKeepsCaused(Exec(New(want, bounded), ls[..|ls| - 1]), ls[|ls| - 1], bounded);
    }
  }

  lemma NewIsCaused(want: int, bounded: bool)
    ensures Caused(New(want, bounded), bounded)
  {
  }

  /** After the batch both timers are off, and the deadline's callback starts once
      at most, and only with a deadline. */
  lemma {:induction false} FiredIsQuiet(want: int, bounded: bool, ls: seq<Label>)
    ensures var s := Exec(New(want, bounded), ls);
            && (s.fired ==> !s.timer && !s.deadline)
            && s.expiring + (if s.deadline then 1 else 0) <= (if bounded then 1 else 0)
    decreases |ls|
  {
    hide Do;
    if ls != [] {
      FiredIsQuiet(want, bounded, ls[..|ls| - 1]);
      DoKeepsQuiet(Exec(New(want, bounded), ls[..|ls| - 1]), ls[|ls| - 1], if bounded then 1 else 0);
    }
  }

  lemma DoKeepsQuiet(s: State, l: Label, n: nat)
    requires (s.fired ==> !s.timer && !s.deadline) && s.expiring + (if s.deadline then 1 else 0) <= n
    ensures var t := Do(s, l); (t.fired ==> !t.timer && !t.deadline) && t.expiring + (if t.deadline then 1 else 0) <= n
  {
  }

  /** A child that already settled does not complete again; it may still fail, and
      that restarts the quiescence window. */
  lemma RepeatedSettlement(want: int, bounded: bool, ls: seq<Label>, id: Text, cause: Text)
    requires id in Heard(New(want, bounded), ls) && !Exec(New(want, bounded), ls).fired
    ensures var s := Exec(New(want, bounded), ls);
            && Do(s, Complete(id)) == s
            && Do(s, Fail(id, cause)) == s.(tombstones := s.tombstones[id := cause], timer := true)
  {
    hide Exec;
    RunHears(want, bounded, ls);
    RunKeepsInv(want, bounded, ls);
    var s := Exec(New(want, bounded), ls);
    assert s.completed + {id} == s.completed;
  }

  /** What is outstanding fires the batch without any further event. */
  lemma OutstandingFires(s: State) returns (ls: seq<Label>)
    requires !s.fired && Outstanding(s)
    ensures Silent(ls) && Stop !in ls && Exec(s, ls).fired
  {
    if s.timer || s.quiescing > 0 {
      ls := [TimerElapses, RunQuiescence];
    } else {
      ls := [DeadlineElapses, RunTimeout];
    }
    TwoSteps(s, ls[0], ls[1]);
  }

  /** An unfired coalescer can still yield its batch in silence exactly if
      something is outstanding. */
  lemma FiresAloneIff(s: State)
    requires !s.fired
    ensures Outstanding(s) <==> exists ls :: Silent(ls) && Exec(s, ls).fired
  {
    hide Exec, Silent, Outstanding;
    if Outstanding(s) {
      var ls := OutstandingFires(s);
    } else {
      forall ls | Silent(ls) ensures !Exec(s, ls).fired {
        SilenceIsFinal(s, ls);
      }
    }
  }

  /** The exact condition for Wait's promise: a coalescer that was never stopped
      and has not fired can still yield on its own exactly if it has a deadline or
      has heard an event. */
  lemma WaitYieldsIff(want: int, bounded: bool, ls: seq<Label>)
    requires Stop !in ls && !Exec(New(want, bounded), ls).fired
    ensures (exists ms :: Silent(ms) && Exec(Exec(New(want, bounded), ls), ms).fired) <==>
            bounded || Heard(New(want, bounded), ls) != {}
  {
    hide Exec, Silent, Outstanding, Heard;
    WakeIsPending(want, bounded, ls);
    FiresAloneIff(Exec(New(want, bounded), ls));
  }

  /** Without a deadline and without events nothing is ever sent, whatever timers,
      callbacks and Stops happen. */
  lemma {:induction false} NothingHeardNothingSent(want: int, ls: seq<Label>)
    requires Heard(New(want, false), ls) == {}
    ensures var s := Exec(New(want, false), ls); !s.fired && s.out == [] && s.completed == {} && !Outstanding(s)
    decreases |ls|
  {
    hide Do;
    if ls != [] {
      var n := |ls| - 1;
      NothingHeardNothingSent(want, ls[..n]);
      SilentStepStaysDead(Exec(New(want, false), ls[..n]), ls[n]);
    }
  }

  /** A coalescer stopped before it fired yields a batch in the silence that
      follows exactly if one of its callbacks had already started. */
  lemma StoppedFiresIff(want: int, bounded: bool, ls: seq<Label>)
    requires !Exec(New(want, bounded), ls).fired
    ensures var s := Exec(New(want, bounded), ls);
            (exists ms :: Silent(ms) && Exec(Do(s, Stop), ms).fired) <==> s.quiescing > 0 || s.expiring > 0
  {
    hide Exec, Silent;
    FiresAloneIff(Do(Exec(New(want, bounded), ls), Stop));
  }

  /** Nothing settles and the current debounce window does not elapse. */
  ghost predicate InsideWindow(ls: seq<Label>) {
    forall l :: l in ls ==> Ids(l) == {} && l != TimerElapses
  }

  /** The batch was released by quiescence. */
  predicate Quiesced(s: State) {
    s.fired && |s.out| == 1 && s.out[0].reason == Quiescence
  }

  lemma WindowStep(s: State, l: Label)
    requires Inv(s) && s.quiescing == 0 && !Quiesced(s) && Ids(l) == {} && l != TimerElapses
    ensures Do(s, l).quiescing == 0 && !Quiesced(Do(s, l))
  {
  }

  /** Without a started callback no quiescence wake comes before the window elapses. */
  lemma {:induction false} WindowHolds(s: State, ls: seq<Label>)
    requires Inv(s) && s.quiescing == 0 && !Quiesced(s) && InsideWindow(ls)
    ensures var t := Exec(s, ls); Inv(t) && t.quiescing == 0 && !Quiesced(t)
    decreases |ls|
  {
    hide Do, Inv;
    if ls != [] {
      var n := |ls| - 1;
      assert ls[n] in ls && forall l :: l in ls[..n] ==> l in ls;
      WindowHolds(s, ls[..n]);
      WindowStep(Exec(s, ls[..n]), ls[n]);
      DoKeepsInv(Exec(s, ls[..n]), ls[n]);
    }
  }

  lemma SettlingKeepsCallbacks(s: State, l: Label)
    requires Ids(l) != {}
    ensures Do(s, l).quiescing == s.quiescing
  {
  }

  lemma CallbackQuiesces(s: State)
    requires Inv(s) && !s.fired && s.quiescing > 0
    ensures Quiesced(Exec(s, [RunQuiescence])) && InsideWindow([RunQuiescence])
  {
    assert Exec(s, [RunQuiescence]) == Do(s, RunQuiescence) by {
      assert [RunQuiescence][..0] == [];
    }
  }

  /** The exact condition for a silent window. Over every run, after a settling
      event that does not itself fire the batch, a quiescence wake can come before
      the window that follows has elapsed exactly if a debounce callback had
      already started when the event came. */
  lemma EarlyQuiescenceIff(want: int, bounded: bool, ls: seq<Label>, l: Label)
    requires Ids(l) != {} && !Do(Exec(New(want, bounded), ls), l).fired
    ensures var s := Exec(New(want, bounded), ls);
            (exists ms :: InsideWindow(ms) && Quiesced(Exec(Do(s, l), ms))) <==> s.quiescing > 0
  {
    hide Exec, Do, Inv, InsideWindow, Quiesced;
    var s := Exec(New(want, bounded), ls);
    var t := Do(s, l);
    RunKeepsInv(want, bounded, ls);
    DoKeepsInv(s, l);
    SettlingKeepsCallbacks(s, l);
    if s.quiescing > 0 {
      CallbackQuiesces(t);
    } else {
      UnfiredIsNotQuiesced(t);
      forall ms | InsideWindow(ms) ensures !Quiesced(Exec(t, ms)) {
        WindowHolds(t, ms);
      }
    }
  }

  lemma UnfiredIsNotQuiesced(s: State)
    requires !s.fired
    ensures !Quiesced(s)
  {
  }

  /** A debounce callback that waits for the mutex fires although a newer event
      has just restarted the window: quiescence does not imply silence. */
  lemma LateCallbackFires(a: Text, b: Text)
    requires a != b
    ensures var s := Exec(New(3, false), [Complete(a), TimerElapses, Complete(b)]);
            && s.timer && !s.fired
            && Do(s, RunQuiescence).out == [Batch({a, b}, map[], Quiescence)]
  {
    var s0 := New(3, false);
    var s1 := s0.(completed := {a}, timer := true);
    var s2 := s1.(timer := false, quiescing := 1);
    var s3 := s2.(completed := {a, b}, timer := true);
    assert Do(s0, Complete(a)) == s1 by {
      assert s0.completed + {a} == {a};
    }
    assert Do(s1, TimerElapses) == s2;
    assert Do(s2, Complete(b)) == s3 by {
      assert {a} + {b} == {a, b} && |{a, b}| == 2;
    }
    ThreeSteps(s0, Complete(a), TimerElapses, Complete(b));
    assert {a, b} - s3.tombstones.Keys == {a, b};
  }

  lemma ThreeSteps(s: State, k: Label, l: Label, m: Label)
    ensures Exec(s, [k, l, m]) == Do(Do(Do(s, k), l), m)
  {
    hide Do;
    assert [k][..0] == [] && [k, l][..1] == [k] && [k, l, m][..2] == [k, l];
    assert Exec(s, [k]) == Do(s, k);
    assert Exec(s, [k, l]) == Do(Exec(s, [k]), l);
  }

  // ------------------------------------------------------------------- the object

  /** A batch as sent: the order of the completed ids is the map's. */
  datatype WakeBatch = WakeBatch(completed: seq<Text>, tombstones: map<Text, Text>, reason: Reason)

  function Seen(b: WakeBatch): Batch {
    Batch((set id | id in b.completed), b.tombstones, b.reason)
  }

  function Sent(out: seq<WakeBatch>): seq<Batch> {
    seq(|out|, k requires 0 <= k < |out| => Seen(out[k]))
  }

  ghost predicate NoRepeats(xs: seq<Text>) {
    forall j, k :: 0 <= j < k < |xs| ==> xs[j] != xs[k]
  }

  class Object {
    var want: int
    var completed: set<Text>
    var tombstones: map<Text, Text>
    var fired: bool
    var timer: bool
    var deadline: bool
    var out: seq<WakeBatch>
    // Callbacks that wait for the mutex belong to the Go runtime.
    ghost var quiescing: nat
    ghost var expiring: nat

    ghost function View(): State
      reads this
    {
      State(want, completed, tombstones, fired, timer, deadline, quiescing, expiring, Sent(out))
    }

    /** The channel has room for one batch; an unfired object has sent none. */
    ghost predicate Valid()
      reads this
    {
      Inv(View()) && forall k :: 0 <= k < |out| ==> NoRepeats(out[k].completed)
    }

    constructor (want: int, timeout: int)
      ensures Valid() && View() == New(want, timeout > 0)
    {
      this.want, completed, tombstones := want, {}, map[];
      fired, timer, deadline, out := false, false, timeout > 0, [];
      quiescing, expiring := 0, 0;
    }

    method FireLocked(reason: Reason)
      requires tombstones.Keys <= completed && (!fired ==> out == [])
      requires forall k :: 0 <= k < |out| ==> NoRepeats(out[k].completed)
      modifies this
      ensures View() == Fire(old(View()), reason)
      ensures forall k :: 0 <= k < |out| ==> NoRepeats(out[k].completed)
    {
      if fired {
        return;
      }
      fired, timer, deadline := true, false, false;
      var done := Survivors(completed, tombstones);
      var why := if reason == AllComplete && |tombstones| > 0 then Tombstone else reason;
      out := out + [WakeBatch(done, tombstones, why)];
      assert Seen(out[0]) == Batch(completed - tombstones.Keys, tombstones, why);
      assert Sent(out) == [Seen(out[0])];
    }

    method CompleteChild(id: Text)
      requires Valid()
      modifies this
      ensures Valid() && View() == Do(old(View()), Complete(id))
    {
      DoKeepsInv(View(), Complete(id));
      if fired || id in completed {
        return;
      }
      completed := completed + {id};
      if want > 0 && |completed| >= want {
        FireLocked(AllComplete);
        return;
      }
      timer := true;
    }

    method FailChild(id: Text, cause: Text)
      requires Valid()
      modifies this
      ensures Valid() && View() == Do(old(View()), Fail(id, cause))
    {
      DoKeepsInv(View(), Fail(id, cause));
      if fired {
        return;
      }
      completed := completed + {id};
      tombstones := tombstones[id := cause];
      if want > 0 && |completed| >= want {
        FireLocked(if |tombstones| > 0 then Tombstone else AllComplete);
        return;
      }
      timer := true;
    }

    method StopTimers()
      requires Valid()
      modifies this`timer, this`deadline
      ensures Valid() && View() == Do(old(View()), Stop)
    {
      timer, deadline := false, false;
    }

    /** The body of either timer's callback, once it holds the mutex. */
    method RunCallback(timeout: bool)
      requires Valid() && (if timeout then expiring > 0 else quiescing > 0)
      modifies this
      ensures Valid() && View() == Do(old(View()), if timeout then RunTimeout else RunQuiescence)
    {
      DoKeepsInv(View(), if timeout then RunTimeout else RunQuiescence);
      if timeout {
        expiring := expiring - 1;
        FireLocked(Timeout);
      } else {
        quiescing := quiescing - 1;
        FireLocked(Quiescence);
      }
    }
  }

  /** The loop over the completed map that leaves the tombstones out. */
  method Survivors(completed: set<Text>, tombstones: map<Text, Text>) returns (done: seq<Text>)
    ensures NoRepeats(done) && forall id :: id in done <==> id in completed && id !in tombstones
  {
    done := [];
    var todo := completed;
    while todo != {}
      invariant todo <= completed && NoRepeats(done)
      invariant forall id :: id in done <==> id in completed && id !in todo && id !in tombstones
      decreases |todo|
    {
      var id :| id in todo;
      if id !in tombstones {
        assert id !in done;
        done := done + [id];
      }
      todo := todo - {id};
    }
  }
}
