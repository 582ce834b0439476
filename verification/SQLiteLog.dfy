/** The durable update log: two tables, their statements, and the atomic
    migration of legacy mailbox identities onto scoped ones. */
module SQLiteLog {
  import opened Updates
  import opened Wrappers

  datatype Snapshot = Snapshot(memory: Memory, updatedAt: int)
  datatype Tables = Tables(updates: Log, snapshots: map<Text, Snapshot>)

  datatype Rebind = Rebind(legacy: Text, scoped: Text)

  datatype RebindResult =
    | Rebound(changed: bool)
    | BadIdentity
    | DuplicateLegacy
    | DuplicateScoped
    | DatabaseError

  // ------------------------------------------------------------ one statement

  function Retarget(row: Row, r: Rebind): Row {
    if row.update.toAgent == r.legacy then row.(update := row.update.(toAgent := r.scoped)) else row
  }

  function Lookup(snapshots: map<Text, Snapshot>, a: Text): Option<Snapshot> {
    if a in snapshots then Some(snapshots[a]) else None
  }

  /** Which of two snapshots survives a merge: the newer, the existing one on a tie. */
  function Newer(existing: Option<Snapshot>, incoming: Option<Snapshot>): (r: Option<Snapshot>)
    ensures existing.None? || incoming.None? ==> r == if existing.Some? then existing else incoming
    ensures existing.Some? && incoming.Some? ==>
              && (existing.value.updatedAt >= incoming.value.updatedAt ==> r == existing)
              && (existing.value.updatedAt < incoming.value.updatedAt ==> r == incoming)
  {
    if incoming.None? then existing
    else if existing.None? || incoming.value.updatedAt > existing.value.updatedAt then incoming
    else existing
  }

  /** INSERT ... SELECT ... ON CONFLICT DO UPDATE ... WHERE newer. */
  function Upserted(t: Tables, r: Rebind): map<Text, Snapshot> {
    var merged := Newer(Lookup(t.snapshots, r.scoped), Lookup(t.snapshots, r.legacy));
    if merged.Some? then t.snapshots[r.scoped := merged.value] else t.snapshots
  }

  /** UPDATE, upsert and DELETE for one entry of a plan. */
  function RebindOne(t: Tables, r: Rebind): Tables {
    Tables(map id | id in t.updates :: Retarget(t.updates[id], r), Upserted(t, r) - {r.legacy})
  }

  function RebindAll(t: Tables, plan: seq<Rebind>): Tables
    decreases |plan|
  {
    if plan == [] then t else RebindAll(RebindOne(t, plan[0]), plan[1..])
  }

  /** Some row or snapshot carries the identity. */
  predicate Holds(t: Tables, a: Text) {
    (exists id :: id in t.updates && t.updates[id].update.toAgent == a) || a in t.snapshots
  }

  function Active(t: Tables, plan: seq<Rebind>): seq<Rebind>
    decreases |plan|
  {
    if plan == [] then []
    else (if Holds(t, plan[0].legacy) then [plan[0]] else []) + Active(t, plan[1..])
  }

  // ------------------------------------------------------------------- plans

  ghost predicate DistinctLegacy(plan: seq<Rebind>) {
    forall j, k :: 0 <= j < k < |plan| ==> plan[j].legacy != plan[k].legacy
  }

  ghost predicate DistinctScoped(plan: seq<Rebind>) {
    forall j, k :: 0 <= j < k < |plan| ==> plan[j].scoped != plan[k].scoped
  }

  predicate GoodEntry(r: Rebind) {
    r.legacy != [] && r.scoped != [] && r.legacy != r.scoped
  }

  ghost predicate ValidPlan(plan: seq<Rebind>) {
    && (forall k :: 0 <= k < |plan| ==> GoodEntry(plan[k]))
    && DistinctLegacy(plan) && DistinctScoped(plan)
  }

  /** No scoped identity is another entry's legacy identity. */
  ghost predicate Disjoint(plan: seq<Rebind>) {
    forall j, k :: 0 <= j < |plan| && 0 <= k < |plan| ==> plan[j].scoped != plan[k].legacy
  }

  /** Where a plan sends an identity. */
  function Route(plan: seq<Rebind>, a: Text): Text
    decreases |plan|
  {
    if plan == [] then a
    else if plan[0].legacy == a then plan[0].scoped
    else Route(plan[1..], a)
  }

  /** The legacy identity that a plan merges into a. */
  function Source(plan: seq<Rebind>, a: Text): Option<Text>
    decreases |plan|
  {
    if plan == [] then None
    else if plan[0].scoped == a then Some(plan[0].legacy)
    else Source(plan[1..], a)
  }

  predicate IsLegacy(plan: seq<Rebind>, a: Text) {
    exists k :: 0 <= k < |plan| && plan[k].legacy == a
  }

  /** The snapshot an identity has after the plan, in terms of the tables before. */
  function SnapshotAfter(t: Tables, plan: seq<Rebind>, a: Text): Option<Snapshot> {
    if IsLegacy(plan, a) then None
    else
      var s := Source(plan, a);
      Newer(Lookup(t.snapshots, a), if s.Some? then Lookup(t.snapshots, s.value) else None)
  }

  lemma PlanTail(plan: seq<Rebind>, a: Text)
    requires plan != [] && ValidPlan(plan) && Disjoint(plan)
    ensures ValidPlan(plan[1..]) && Disjoint(plan[1..])
    ensures IsLegacy(plan, a) <==> a == plan[0].legacy || IsLegacy(plan[1..], a)
    ensures !IsLegacy(plan[1..], plan[0].legacy) && !IsLegacy(plan[1..], plan[0].scoped)
  {
  }

  lemma {:induction false} RouteOfOther(plan: seq<Rebind>, a: Text)
    requires !IsLegacy(plan, a)
    ensures Route(plan, a) == a
    decreases |plan|
  {
    if plan != [] {
      assert plan[0].legacy != a;
      assert forall k :: 0 <= k < |plan[1..]| ==> plan[1..][k] == plan[k + 1];
      RouteOfOther(plan[1..], a);
    }
  }

  lemma {:induction false} SourceIsEntry(plan: seq<Rebind>, a: Text)
    ensures Source(plan, a).Some? ==>
              exists k :: 0 <= k < |plan| && plan[k] == Rebind(Source(plan, a).value, a)
    ensures Source(plan, a).None? ==> forall k :: 0 <= k < |plan| ==> plan[k].scoped != a
    decreases |plan|
  {
    if plan != [] && plan[0].scoped != a {
      SourceIsEntry(plan[1..], a);
      if Source(plan, a).Some? {
        var k :| 0 <= k < |plan[1..]| && plan[1..][k] == Rebind(Source(plan, a).value, a);
        assert plan[k + 1] == Rebind(Source(plan, a).value, a);
      } else {
        forall k | 0 <= k < |plan| ensures plan[k].scoped != a {
          assert k > 0 ==> plan[k] == plan[1..][k - 1];
        }
      }
    }
  }

  // ------------------------------------------------------------- conservation

  /** Every update keeps its id, content and processed flag; only its recipient moves. */
  lemma {:induction false} RebindRoutesRows(t: Tables, plan: seq<Rebind>, id: Text)
    requires ValidPlan(plan) && Disjoint(plan) && id in t.updates
    ensures RebindAll(t, plan).updates.Keys == t.updates.Keys
    ensures var row := t.updates[id];
            RebindAll(t, plan).updates[id] == row.(update := row.update.(toAgent := Route(plan, row.update.toAgent)))
    decreases |plan|
  {
    if plan != [] {
      PlanTail(plan, t.updates[id].update.toAgent);
      RouteOfOther(plan[1..], plan[0].scoped);
      RebindRoutesRows(RebindOne(t, plan[0]), plan[1..], id);
    }
  }

  lemma {:induction false} RebindKeepsKeys(t: Tables, plan: seq<Rebind>)
    ensures RebindAll(t, plan).updates.Keys == t.updates.Keys
    decreases |plan|
  {
    if plan != [] {
      RebindKeepsKeys(RebindOne(t, plan[0]), plan[1..]);
    }
  }

  lemma SourceTail(plan: seq<Rebind>, a: Text)
    requires plan != [] && ValidPlan(plan) && Disjoint(plan)
    ensures a == plan[0].scoped || a == plan[0].legacy ==> Source(plan[1..], a) == None
    ensures plan[0].scoped != a && Source(plan[1..], a).Some? ==>
              Source(plan[1..], a).value != plan[0].legacy && Source(plan[1..], a).value != plan[0].scoped
  {
    SourceIsEntry(plan[1..], a);
    assert forall k :: 0 <= k < |plan[1..]| ==> plan[1..][k] == plan[k + 1];
    if plan[0].scoped != a && Source(plan[1..], a).Some? {
      var k :| 0 <= k < |plan[1..]| && plan[1..][k] == Rebind(Source(plan[1..], a).value, a);
      assert plan[k + 1] == Rebind(Source(plan[1..], a).value, a);
    }
  }

  lemma RebindOneLookup(t: Tables, r: Rebind, a: Text)
    requires r.legacy != r.scoped
    ensures Lookup(RebindOne(t, r).snapshots, a) ==
            if a == r.legacy then None
            else if a == r.scoped then Newer(Lookup(t.snapshots, a), Lookup(t.snapshots, r.legacy))
            else Lookup(t.snapshots, a)
  {
  }

  /** Each scoped snapshot is the newer of the two, every other one is untouched
      and no legacy one is left. */
  lemma {:induction false} RebindMergesSnapshots(t: Tables, plan: seq<Rebind>, a: Text)
    requires ValidPlan(plan) && Disjoint(plan)
    ensures Lookup(RebindAll(t, plan).snapshots, a) == SnapshotAfter(t, plan, a)
    decreases |plan|
  {
    if plan != [] {
      PlanTail(plan, a);
      SourceTail(plan, a);
      RebindOneLookup(t, plan[0], a);
      RebindMergesSnapshots(RebindOne(t, plan[0]), plan[1..], a);
      if Source(plan[1..], a).Some? {
        RebindOneLookup(t, plan[0], Source(plan[1..], a).value);
      }
    }
  }

  lemma {:induction false} RouteIsNotLegacy(plan: seq<Rebind>, a: Text)
    requires ValidPlan(plan) && Disjoint(plan)
    ensures !IsLegacy(plan, Route(plan, a))
    decreases |plan|
  {
    if plan != [] && plan[0].legacy != a {
      PlanTail(plan, Route(plan[1..], a));
      RouteIsNotLegacy(plan[1..], a);
      RouteTarget(plan[1..], a);
      assert forall k :: 0 <= k < |plan[1..]| ==> plan[1..][k] == plan[k + 1];
    }
  }

  lemma {:induction false} RouteTarget(plan: seq<Rebind>, a: Text)
    ensures Route(plan, a) == a || exists k :: 0 <= k < |plan| && plan[k].scoped == Route(plan, a)
    decreases |plan|
  {
    if plan != [] && plan[0].legacy != a && Route(plan[1..], a) != a {
      RouteTarget(plan[1..], a);
      var k :| 0 <= k < |plan[1..]| && plan[1..][k].scoped == Route(plan, a);
      assert plan[k + 1].scoped == Route(plan, a);
    }
  }

  /** After the migration no row and no snapshot keeps a legacy identity. */
  lemma NoLegacyLeft(t: Tables, plan: seq<Rebind>, k: nat)
    requires ValidPlan(plan) && Disjoint(plan) && k < |plan|
    ensures !Holds(RebindAll(t, plan), plan[k].legacy)
  {
    var t' := RebindAll(t, plan);
    RebindKeepsKeys(t, plan);
    forall id | id in t'.updates ensures t'.updates[id].update.toAgent != plan[k].legacy {
      RebindRoutesRows(t, plan, id);
      RouteIsNotLegacy(plan, t.updates[id].update.toAgent);
    }
    RebindMergesSnapshots(t, plan, plan[k].legacy);
  }

  // --------------------------------------------------------- the active entries

  /** An entry whose legacy identity holds nothing changes nothing. */
  lemma InactiveIsNoOp(t: Tables, r: Rebind)
    requires !Holds(t, r.legacy)
    ensures RebindOne(t, r) == t
  {
  }

  lemma HoldsElsewhere(t: Tables, r: Rebind, a: Text)
    requires a != r.legacy && a != r.scoped
    ensures Holds(RebindOne(t, r), a) <==> Holds(t, a)
  {
    var t' := RebindOne(t, r);
    forall id | id in t.updates
      ensures t'.updates[id].update.toAgent == a <==> t.updates[id].update.toAgent == a
    {
    }
  }

  lemma {:induction false} ActiveElsewhere(t: Tables, r: Rebind, plan: seq<Rebind>)
    requires !IsLegacy(plan, r.legacy) && !IsLegacy(plan, r.scoped)
    ensures Active(RebindOne(t, r), plan) == Active(t, plan)
    decreases |plan|
  {
    if plan != [] {
      assert plan[0].legacy != r.legacy && plan[0].legacy != r.scoped;
      assert forall k :: 0 <= k < |plan[1..]| ==> plan[1..][k] == plan[k + 1];
      HoldsElsewhere(t, r, plan[0].legacy);
      ActiveElsewhere(t, r, plan[1..]);
    }
  }

  /** Filtering the plan by one look at the tables is as good as running all of it. */
  lemma {:induction false} ActiveSuffices(t: Tables, plan: seq<Rebind>)
    requires ValidPlan(plan) && Disjoint(plan)
    ensures RebindAll(t, Active(t, plan)) == RebindAll(t, plan)
    decreases |plan|
  {
    if plan != [] {
      PlanTail(plan, plan[0].legacy);
      if Holds(t, plan[0].legacy) {
        assert Active(t, plan)[0] == plan[0] && Active(t, plan)[1..] == Active(t, plan[1..]);
        ActiveElsewhere(t, plan[0], plan[1..]);
        ActiveSuffices(RebindOne(t, plan[0]), plan[1..]);
      } else {
        InactiveIsNoOp(t, plan[0]);
        assert Active(t, plan) == Active(t, plan[1..]);
        ActiveSuffices(t, plan[1..]);
      }
    }
  }

  lemma {:induction false} NothingActive(t: Tables, plan: seq<Rebind>)
    requires forall k :: 0 <= k < |plan| ==> !Holds(t, plan[k].legacy)
    ensures Active(t, plan) == []
    decreases |plan|
  {
    if plan != [] {
      assert forall k :: 0 <= k < |plan[1..]| ==> plan[1..][k] == plan[k + 1];
      NothingActive(t, plan[1..]);
    }
  }

  /** A second run of the same migration finds nothing to do. */
  lemma RebindConverges(t: Tables, plan: seq<Rebind>)
    requires ValidPlan(plan) && Disjoint(plan)
    ensures var t' := RebindAll(t, Active(t, plan));
            Active(t', plan) == [] && RebindAll(t', Active(t', plan)) == t'
  {
    ActiveSuffices(t, plan);
    forall k | 0 <= k < |plan| ensures !Holds(RebindAll(t, plan), plan[k].legacy) {
      NoLegacyLeft(t, plan, k);
    }
    NothingActive(RebindAll(t, plan), plan);
  }

  // -------------------------------------------------------------- the backlogs

  function Retargeted(us: seq<Update>, a: Text): seq<Update> {
    seq(|us|, k requires 0 <= k < |us| => us[k].(toAgent := a))
  }

  lemma RetargetedMember(us: seq<Update>, a: Text, u: Update)
    requires forall k :: 0 <= k < |us| ==> us[k].toAgent != a
    ensures u in Retargeted(us, a) ==> u.toAgent == a
    ensures forall v :: v in us && u == v.(toAgent := a) ==> u in Retargeted(us, a)
    ensures u in Retargeted(us, a) ==> exists v :: v in us && u == v.(toAgent := a)
  {
    forall v | v in us && u == v.(toAgent := a) ensures u in Retargeted(us, a) {
      var k :| 0 <= k < |us| && us[k] == v;
      assert Retargeted(us, a)[k] == u;
    }
    if u in Retargeted(us, a) {
      var k :| 0 <= k < |us| && Retargeted(us, a)[k] == u;
      assert us[k] in us;
    }
  }

  /** The rows an identity receives are its own and those of its source. */
  lemma {:induction false} RouteReaches(plan: seq<Rebind>, k: nat, a: Text)
    requires ValidPlan(plan) && Disjoint(plan) && k < |plan|
    ensures Route(plan, a) == plan[k].scoped <==> a == plan[k].scoped || a == plan[k].legacy
    decreases |plan|
  {
    PlanTail(plan, a);
    if k == 0 {
      RouteTarget(plan[1..], a);
      RouteOfOther(plan[1..], plan[0].scoped);
      assert forall j :: 0 <= j < |plan[1..]| ==> plan[1..][j] == plan[j + 1];
    } else {
      assert plan[1..][k - 1] == plan[k];
      RouteReaches(plan[1..], k - 1, a);
    }
  }

  /** Each scoped backlog is the ordered merge of the two old backlogs. */
  lemma RebindMergesBacklogs(t: Tables, plan: seq<Rebind>, k: nat, ls: seq<Update>, ss: seq<Update>, ns: seq<Update>)
    requires LogOk(t.updates) && ValidPlan(plan) && Disjoint(plan) && k < |plan|
    requires IsBacklog(t.updates, plan[k].legacy, ls) && IsBacklog(t.updates, plan[k].scoped, ss)
    requires IsBacklog(RebindAll(t, plan).updates, plan[k].scoped, ns)
    ensures ns == Merge(Retargeted(ls, plan[k].scoped), ss)
  {
    hide RebindAll;
    var scoped, legacy := plan[k].scoped, plan[k].legacy;
    var t' := RebindAll(t, plan);
    var ls' := Retargeted(ls, scoped);
    RebindKeepsKeys(t, plan);
    assert LogOk(t'.updates) by {
      forall id | id in t'.updates ensures id != [] && t'.updates[id].update.id == id {
        RebindRoutesRows(t, plan, id);
      }
    }
    assert Ordered(ls');
    forall u, v | u in ls' && v in ss ensures u.id != v.id {
      RetargetedMember(ls, scoped, u);
      BacklogMembers(t.updates, scoped, ss, v);
      var w :| w in ls && u == w.(toAgent := scoped);
      BacklogMembers(t.updates, legacy, ls, w);
    }
    MergeOrdered(ls', ss);
    forall u ensures u in ns <==> u in Merge(ls', ss) {
      MergeMembers(ls', ss, u);
      BacklogMembers(t'.updates, scoped, ns, u);
      BacklogMembers(t.updates, scoped, ss, u);
      RetargetedMember(ls, scoped, u);
      MovedRow(t, plan, k, ls, u);
    }
    OrderedUnique(ns, Merge(ls', ss));
  }

  /** A pending row of the scoped identity was pending there or came from the legacy one. */
  lemma MovedRow(t: Tables, plan: seq<Rebind>, k: nat, ls: seq<Update>, u: Update)
    requires LogOk(t.updates) && ValidPlan(plan) && Disjoint(plan) && k < |plan|
    requires IsBacklog(t.updates, plan[k].legacy, ls)
    ensures var t' := RebindAll(t, plan).updates;
            (Stored(t', u) && Pending(t', plan[k].scoped, u.id)) <==>
            (Stored(t.updates, u) && Pending(t.updates, plan[k].scoped, u.id)) || u in Retargeted(ls, plan[k].scoped)
  {
    hide RebindAll;
    var scoped, legacy := plan[k].scoped, plan[k].legacy;
    RebindKeepsKeys(t, plan);
    RetargetedMember(ls, scoped, u);
    if u.id in t.updates {
      var row := t.updates[u.id];
      RebindRoutesRows(t, plan, u.id);
      RouteReaches(plan, k, row.update.toAgent);
      var v := u.(toAgent := legacy);
      BacklogMembers(t.updates, legacy, ls, v);
      assert v.(toAgent := u.toAgent) == u;
      if u in Retargeted(ls, scoped) {
        var w :| w in ls && u == w.(toAgent := scoped);
        assert w == v by {
          BacklogMembers(t.updates, legacy, ls, w);
        }
      }
    } else {
      forall w | w in ls ensures w.id in t.updates {
        BacklogMembers(t.updates, legacy, ls, w);
      }
    }
  }

  // ------------------------------------------------------------------- pruning

  function Members(ids: seq<Text>): set<Text> {
    set a | a in ids
  }

  function PruneOne(t: Tables, a: Text): Tables {
    Tables(map id | id in t.updates && t.updates[id].update.toAgent != a :: t.updates[id], t.snapshots - {a})
  }

  /** Exactly the listed identities disappear. */
  ghost predicate Pruned(t: Tables, ids: set<Text>, t': Tables) {
    && t'.updates == (map id | id in t.updates && t.updates[id].update.toAgent !in ids :: t.updates[id])
    && t'.snapshots == t.snapshots - ids
  }

  lemma PruneSnoc(t: Tables, ids: set<Text>, t': Tables, a: Text)
    requires Pruned(t, ids, t') && a !in ids
    ensures Pruned(t, ids + {a}, PruneOne(t', a))
    ensures Holds(t', a) <==> Holds(t, a)
  {
    if Holds(t, a) && a !in t.snapshots {
      var id :| id in t.updates && t.updates[id].update.toAgent == a;
      assert id in t'.updates;
    }
  }

  ghost predicate Prunable(ids: seq<Text>) {
    [] !in ids && forall j, k :: 0 <= j < k < |ids| ==> ids[j] != ids[k]
  }

  method CheckNames(ids: seq<Text>) returns (r: Checked)
    ensures r.Fine? <==> Prunable(ids)
    ensures r.Refused? ==> r.why == BadIdentity || r.why == DuplicateLegacy
  {
    var seen: set<Text> := {};
    for n := 0 to |ids|
      invariant forall a :: a in seen <==> exists k :: 0 <= k < n && ids[k] == a
      invariant forall k :: 0 <= k < n ==> ids[k] != []
      invariant forall j, k :: 0 <= j < k < n ==> ids[j] != ids[k]
    {
      if ids[n] == [] {
        return Refused(BadIdentity);
      }
      if ids[n] in seen {
        return Refused(DuplicateLegacy);
      }
      seen := seen + {ids[n]};
    }
    return Fine;
  }

  /** The deletion pass. */
  method DropAll(t0: Tables, ids: seq<Text>) returns (t: Tables, changed: bool)
    requires Prunable(ids)
    ensures Pruned(t0, Members(ids), t)
    ensures changed <==> exists a :: a in Members(ids) && Holds(t0, a)
  {
    t, changed := t0, false;
    for n := 0 to |ids|
      invariant Pruned(t0, Members(ids[..n]), t)
      invariant changed <==> exists a :: a in Members(ids[..n]) && Holds(t0, a)
    {
      assert Members(ids[..n + 1]) == Members(ids[..n]) + {ids[n]};
      PruneSnoc(t0, Members(ids[..n]), t, ids[n]);
      changed := changed || (exists id :: id in t.updates && t.updates[id].update.toAgent == ids[n]) || ids[n] in t.snapshots;
      t := PruneOne(t, ids[n]);
    }
    assert ids[..|ids|] == ids;
  }

  // ------------------------------------------------------------- query helpers

  ghost predicate Ascending(xs: seq<Text>) {
    forall j, k :: 0 <= j < k < |xs| ==> TextLess(xs[j], xs[k])
  }

  function InsertText(xs: seq<Text>, x: Text): seq<Text>
    decreases |xs|
  {
    if xs == [] || TextLess(x, xs[0]) then [x] + xs else [xs[0]] + InsertText(xs[1..], x)
  }

  lemma {:induction false} InsertTextSorts(xs: seq<Text>, x: Text)
    requires Ascending(xs) && x !in xs
    ensures Ascending(InsertText(xs, x))
    ensures forall y :: y in InsertText(xs, x) <==> y in xs || y == x
    decreases |xs|
  {
    if xs != [] {
      assert xs == [xs[0]] + xs[1..];
      if TextLess(x, xs[0]) {
        forall k | 0 < k < |xs| ensures TextLess(x, xs[k]) {
          TextLessTransitive(x, xs[0], xs[k]);
        }
      } else {
        InsertTextSorts(xs[1..], x);
        TextLessConnected(x, xs[0]);
        var ys := InsertText(xs[1..], x);
        forall k | 0 <= k < |ys| ensures TextLess(xs[0], ys[k]) {
          assert ys[k] in ys;
          if ys[k] != x {
            var j :| 0 <= j < |xs[1..]| && xs[1..][j] == ys[k];
            assert xs[j + 1] == ys[k];
          }
        }
      }
    }
  }

  /** One step of reading a backlog out of the table. */
  lemma BacklogGrows(log: Log, agent: Text, us: seq<Update>, id: Text)
    requires LogOk(log) && Ordered(us) && Pending(log, agent, id)
    requires forall u :: u in us ==> Stored(log, u) && Pending(log, agent, u.id) && u.id != id
    ensures Ordered(Merge([log[id].update], us))
    ensures forall u :: u in Merge([log[id].update], us) <==> u in us || u == log[id].update
  {
    MergeOrdered([log[id].update], us);
    forall u ensures u in Merge([log[id].update], us) <==> u in us || u == log[id].update {
      MergeMembers([log[id].update], us, u);
    }
  }

  /** SELECT ... WHERE to_agent_id = ? AND processed_at IS NULL ORDER BY created_at, update_id. */
  method SelectBacklog(log: Log, agent: Text) returns (us: seq<Update>)
    requires LogOk(log)
    ensures IsBacklog(log, agent, us) && Chronological(us)
    ensures forall u :: u in us <==> u.id in log && log[u.id] == Row(u, false) && u.toAgent == agent
  {
    us := [];
    var todo := PendingIds(log, agent);
    while todo != {}
      invariant todo <= PendingIds(log, agent)
      invariant Ordered(us)
      invariant forall u :: u in us ==> Stored(log, u) && Pending(log, agent, u.id) && u.id !in todo
      invariant forall id :: id in PendingIds(log, agent) && id !in todo ==> log[id].update in us
      decreases |todo|
    {
      var id :| id in todo;
      BacklogGrows(log, agent, us, id);
      us := Merge([log[id].update], us);
      todo := todo - {id};
    }
    OrderedIsChronological(us);
    forall id | Pending(log, agent, id) ensures exists k :: 0 <= k < |us| && us[k].id == id {
      assert id in PendingIds(log, agent) && log[id].update in us;
    }
  }

  method InOrder(names: set<Text>) returns (out: seq<Text>)
    ensures Ascending(out) && forall x :: x in out <==> x in names
  {
    out := [];
    var todo := names;
    while todo != {}
      invariant todo <= names && Ascending(out)
      invariant forall x :: x in out <==> x in names && x !in todo
      decreases |todo|
    {
      var x :| x in todo;
      InsertTextSorts(out, x);
      out := InsertText(out, x);
      todo := todo - {x};
    }
  }

  /** The verdict of a validation loop. */
  datatype Checked = Fine | Refused(why: RebindResult)

  /** The validation loop: it accepts exactly the valid plans. */
  method CheckPlan(plan: seq<Rebind>) returns (r: Checked)
    ensures r.Fine? <==> ValidPlan(plan)
    ensures r.Fine? ==> forall k :: 0 <= k < |plan| ==> plan[k].legacy != [] && plan[k].scoped != [] && plan[k].legacy != plan[k].scoped
    ensures r.Fine? ==> forall j, k :: 0 <= j < k < |plan| ==> plan[j].legacy != plan[k].legacy && plan[j].scoped != plan[k].scoped
    ensures match r
            case Fine => true
            case Refused(why) =>
              || (why == BadIdentity && exists k :: 0 <= k < |plan| && (plan[k].legacy == [] || plan[k].scoped == [] || plan[k].legacy == plan[k].scoped))
              || (why == DuplicateLegacy && exists j, k :: 0 <= j < k < |plan| && plan[j].legacy == plan[k].legacy)
              || (why == DuplicateScoped && exists j, k :: 0 <= j < k < |plan| && plan[j].scoped == plan[k].scoped)
  {
    var legacyIds: set<Text>, scopedIds: set<Text> := {}, {};
    for n := 0 to |plan|
      invariant ValidPlan(plan[..n])
      invariant forall a :: a in legacyIds <==> exists k :: 0 <= k < n && plan[k].legacy == a
      invariant forall a :: a in scopedIds <==> exists k :: 0 <= k < n && plan[k].scoped == a
    {
      var e := plan[n];
      assert plan[..n + 1] == plan[..n] + [e];
      if e.legacy == [] || e.scoped == [] || e.legacy == e.scoped {
        assert !GoodEntry(plan[n]);
        return Refused(BadIdentity);
      }
      if e.legacy in legacyIds {
        assert !DistinctLegacy(plan);
        return Refused(DuplicateLegacy);
      }
      if e.scoped in scopedIds {
        assert !DistinctScoped(plan);
        return Refused(DuplicateScoped);
      }
      legacyIds := legacyIds + {e.legacy};
      scopedIds := scopedIds + {e.scoped};
    }
    assert plan[..|plan|] == plan;
    return Fine;
  }

  lemma {:induction false} ActiveSnoc(t: Tables, plan: seq<Rebind>, r: Rebind)
    ensures Active(t, plan + [r]) == Active(t, plan) + (if Holds(t, r.legacy) then [r] else [])
    decreases |plan|
  {
    if plan != [] {
      assert (plan + [r])[1..] == plan[1..] + [r];
      ActiveSnoc(t, plan[1..], r);
    } else {
      assert (plan + [r])[1..] == [];
    }
  }

  lemma {:induction false} RebindSnoc(t: Tables, plan: seq<Rebind>, r: Rebind)
    ensures RebindAll(t, plan + [r]) == RebindOne(RebindAll(t, plan), r)
    decreases |plan|
  {
    if plan != [] {
      assert (plan + [r])[1..] == plan[1..] + [r];
      RebindSnoc(RebindOne(t, plan[0]), plan[1..], r);
    } else {
      assert (plan + [r])[1..] == [];
    }
  }

  lemma {:induction false} ActiveHolds(t: Tables, plan: seq<Rebind>, k: nat)
    requires k < |Active(t, plan)|
    ensures Holds(t, Active(t, plan)[k].legacy)
    decreases |plan|
  {
    if Holds(t, plan[0].legacy) {
      if k > 0 {
        assert Active(t, plan)[k] == Active(t, plan[1..])[k - 1];
        ActiveHolds(t, plan[1..], k - 1);
      }
    } else {
      ActiveHolds(t, plan[1..], k);
    }
  }

  /** The inspection pass: which entries still have something to move. */
  method FindActive(t: Tables, plan: seq<Rebind>, failAt: Option<nat>) returns (ok: bool, active: seq<Rebind>)
    ensures ok ==> active == Active(t, plan)
    ensures !ok ==> failAt.Some?
  {
    ok, active := true, [];
    for n := 0 to |plan|
      invariant active == Active(t, plan[..n])
    {
      if failAt == Some(n) {
        return false, active;
      }
      assert plan[..n + 1] == plan[..n] + [plan[n]];
      ActiveSnoc(t, plan[..n], plan[n]);
      if (exists id :: id in t.updates && t.updates[id].update.toAgent == plan[n].legacy) || plan[n].legacy in t.snapshots {
        active := active + [plan[n]];
      }
    }
    assert plan[..|plan|] == plan;
  }

  /** The rewriting pass; it reports a change exactly when there was an active entry. */
  method RunPlan(t0: Tables, plan: seq<Rebind>, active: seq<Rebind>, failAt: Option<nat>)
      returns (ok: bool, t: Tables, changed: bool)
    requires active == Active(t0, plan)
    ensures ok ==> t == RebindAll(t0, active) && (changed <==> active != [])
    ensures !ok ==> failAt.Some?
  {
    hide RebindOne;
    ok, t, changed := true, t0, false;
    for n := 0 to |active|
      invariant t == RebindAll(t0, active[..n])
      invariant n == 0 ==> t == t0
      invariant changed <==> n > 0
    {
      if failAt == Some(|plan| + n) {
        return false, t, changed;
      }
      assert active[..n + 1] == active[..n] + [active[n]];
      RebindSnoc(t0, active[..n], active[n]);
      if n == 0 {
        ActiveHolds(t0, plan, 0);
      }
      changed := changed || (exists id :: id in t.updates && t.updates[id].update.toAgent == active[n].legacy)
                         || active[n].legacy in Upserted(t, active[n]);
      t := RebindOne(t, active[n]);
    }
    assert active[..|active|] == active;
    if failAt == Some(|plan| + |active|) {
      ok := false;
    }
  }

  // ------------------------------------------------------------------ the class

  class Database {
    var updates: Log
    var snapshots: map<Text, Snapshot>

    ghost function View(): Tables
      reads this
    {
      Tables(updates, snapshots)
    }

    constructor ()
      ensures View() == Tables(map[], map[])
    {
      updates, snapshots := map[], map[];
    }

    /** INSERT ... ON CONFLICT(update_id) DO NOTHING. */
    method Insert(u: Update) returns (appended: bool)
      modifies this
      ensures appended <==> u.id !in old(updates)
      ensures updates == Append(old(updates), u) && snapshots == old(snapshots)
      ensures updates == if u.id in old(updates) then old(updates) else old(updates)[u.id := Row(u, false)]
    {
      appended := u.id !in updates;
      if appended {
        updates := updates[u.id := Row(u, false)];
      }
    }

    method Unprocessed(agent: Text) returns (us: seq<Update>)
      requires LogOk(updates)
      ensures IsBacklog(updates, agent, us) && Chronological(us)
      ensures forall u :: u in us <==> u.id in updates && updates[u.id] == Row(u, false) && u.toAgent == agent
    {
      us := SelectBacklog(updates, agent);
    }

    method SetProcessed(agent: Text, id: Text)
      modifies this
      ensures updates == MarkProcessed(old(updates), agent, id) && snapshots == old(snapshots)
      ensures updates == if id in old(updates) && old(updates)[id].update.toAgent == agent
                         then old(updates)[id := Row(old(updates)[id].update, true)] else old(updates)
    {
      assert id in updates && updates[id].processed ==> updates[id := Row(updates[id].update, true)] == updates;
      if id in updates && updates[id].update.toAgent == agent && !updates[id].processed {
        updates := updates[id := updates[id].(processed := true)];
      }
    }

    method UpdateStatus(agent: Text, id: Text) returns (found: bool, processed: bool)
      ensures found <==> id in updates && updates[id].update.toAgent == agent
      ensures processed <==> found && updates[id].processed
    {
      found := id in updates && updates[id].update.toAgent == agent;
      processed := found && updates[id].processed;
    }

    method AgentsWithBacklog() returns (agents: seq<Text>)
      ensures forall g :: g in agents <==> exists id :: id in updates && !updates[id].processed && updates[id].update.toAgent == g
      ensures forall j, k :: 0 <= j < k < |agents| ==> agents[j] != agents[k]
    {
      agents := InOrder(set id | id in updates && !updates[id].processed :: updates[id].update.toAgent);
      forall j, k | 0 <= j < k < |agents| ensures agents[j] != agents[k] {
        TextLessIrreflexive(agents[j]);
      }
    }

    /** Every identity that a row or a snapshot still carries, in order. */
    method MailboxIdentities() returns (out: seq<Text>)
      ensures forall a :: a in out <==> Holds(View(), a)
      ensures forall a :: a in out <==> (exists id :: id in updates && updates[id].update.toAgent == a) || a in snapshots
      ensures forall j, k :: 0 <= j < k < |out| ==> SortsBefore(out[j], out[k])
    {
      out := InOrder((set id | id in updates :: updates[id].update.toAgent) + snapshots.Keys);
      forall j, k | 0 <= j < k < |out| ensures SortsBefore(out[j], out[k]) {
        SortsBeforeMeans(out[j], out[k]);
      }
    }

    method SaveSnapshot(agent: Text, memory: Memory, now: int)
      modifies this
      ensures updates == old(updates) && snapshots == old(snapshots)[agent := Snapshot(memory, now)]
    {
      snapshots := snapshots[agent := Snapshot(memory, now)];
    }

    method LoadSnapshot(agent: Text) returns (memory: Memory)
      ensures memory == if agent in snapshots then snapshots[agent].memory else []
    {
      memory := [];
      if agent in snapshots {
        memory := snapshots[agent].memory;
      }
    }

    /** One transaction. `failAt` is the index of the statement the database
        refuses, if it is reached: nothing is committed then. */
    method RebindMailboxes(plan: seq<Rebind>, failAt: Option<nat>) returns (r: RebindResult)
      modifies this
      ensures r.Rebound? ==> ValidPlan(plan) && View() == RebindAll(old(View()), Active(old(View()), plan))
      ensures !r.Rebound? ==> View() == old(View())
      ensures ValidPlan(plan) <==> r.Rebound? || r.DatabaseError?
      ensures r.DatabaseError? ==> failAt.Some?
      ensures r.Rebound? ==> (r.changed <==> Active(old(View()), plan) != [])
    {
      hide ValidPlan, RebindAll, Active;
      var bad := CheckPlan(plan);
      if bad.Refused? {
        return bad.why;
      }
      var ok, active := FindActive(Tables(updates, snapshots), plan, failAt);
      if !ok {
        return DatabaseError;
      }
      var t, changed;
      ok, t, changed := RunPlan(Tables(updates, snapshots), plan, active, failAt);
      if !ok {
        return DatabaseError;
      }
      updates, snapshots := t.updates, t.snapshots;
      return Rebound(changed);
    }

    /** One transaction as well. */
    method PruneMailboxes(ids: seq<Text>, fails: bool) returns (r: RebindResult)
      modifies this
      ensures r.Rebound? ==> Pruned(old(View()), Members(ids), View())
      ensures r.Rebound? ==> (r.changed <==> exists a :: a in Members(ids) && Holds(old(View()), a))
      ensures !r.Rebound? ==> View() == old(View())
      ensures r.Rebound? ==> Prunable(ids)
      ensures Prunable(ids) && !fails ==> r.Rebound?
    {
      hide Pruned, Holds;
      var bad := CheckNames(ids);
      if bad.Refused? {
        return bad.why;
      }
      var t, changed := DropAll(Tables(updates, snapshots), ids);
      if fails && ids != [] {
        return DatabaseError;
      }
      updates, snapshots := t.updates, t.snapshots;
      return Rebound(changed);
    }
  }
}
