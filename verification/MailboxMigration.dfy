/** Boot-time migration of legacy mailbox identities onto scoped ones. */
module MailboxMigration {
  import opened Updates
  import opened Wrappers
  import opened Identity
  import opened SQLiteLog

  /** What the store says about a legacy identity. */
  datatype Resolution = Found(scope: Scope) | NotFound | Unresolvable

  datatype MigrateResult = Migrated | ResolveFailed | PruneFailed | RebindFailed | StillLegacy

  type Resolver = Text -> Resolution

  predicate Parses(m: Text) {
    ParseScoped(m).Some?
  }

  /** The store resolves legacy identities to scopes whose parts are non-empty and NUL-free. */
  ghost predicate GoodResolver(resolve: Resolver) {
    forall m :: resolve(m).Found? ==> CleanScope(TrimmedScope(resolve(m).scope))
  }

  /** The entry a legacy identity contributes to the plan. */
  function Entry(resolve: Resolver, m: Text): Rebind
    requires resolve(m).Found?
  {
    Rebind(m, ScopedMailboxId(resolve(m).scope))
  }

  predicate FromLegacy(resolve: Resolver, ids: seq<Text>, r: Rebind) {
    r.legacy in ids && !Parses(r.legacy) && resolve(r.legacy).Found? && r == Entry(resolve, r.legacy)
  }

  /** Every entry sends an unparsable identity to the joined scope the store found
      for it; every orphan is unparsable and unknown to the store. */
  ghost predicate PlanMeans(resolve: Resolver, plan: seq<Rebind>, orphans: seq<Text>) {
    && (forall k :: 0 <= k < |plan| ==>
          var found := resolve(plan[k].legacy);
          && ParseScoped(plan[k].legacy).None? && found.Found?
          && plan[k].scoped == TrimSpace(found.scope.owner) + [0] + TrimSpace(found.scope.computer) + [0] + TrimSpace(found.scope.agent))
    && (forall m :: m in orphans ==> ParseScoped(m).None? && resolve(m).NotFound?)
  }

  lemma PlannedMeans(resolve: Resolver, ids: seq<Text>, plan: seq<Rebind>, orphans: seq<Text>)
    requires Planned(resolve, ids, plan, orphans)
    ensures PlanMeans(resolve, plan, orphans)
  {
    hide ParseScoped, TrimSpace;
    forall k | 0 <= k < |plan|
      ensures var found := resolve(plan[k].legacy);
              && ParseScoped(plan[k].legacy).None? && found.Found?
              && plan[k].scoped == TrimSpace(found.scope.owner) + [0] + TrimSpace(found.scope.computer) + [0] + TrimSpace(found.scope.agent)
    {
      assert FromLegacy(resolve, ids, plan[k]);
    }
  }

  predicate IsOrphan(resolve: Resolver, ids: seq<Text>, m: Text) {
    m in ids && !Parses(m) && resolve(m).NotFound?
  }

  ghost predicate Planned(resolve: Resolver, ids: seq<Text>, plan: seq<Rebind>, orphans: seq<Text>) {
    && (forall k :: 0 <= k < |plan| ==> FromLegacy(resolve, ids, plan[k]))
    && (forall m :: m in orphans ==> IsOrphan(resolve, ids, m))
    && (forall m :: m in ids && !Parses(m) ==> m in orphans || IsLegacy(plan, m))
  }

  /** Sorting the listed identities into kept, planned and orphaned. */
  method Classify(resolve: Resolver, ids: seq<Text>) returns (ok: bool, plan: seq<Rebind>, orphans: seq<Text>)
    ensures ok ==> Planned(resolve, ids, plan, orphans) && PlanMeans(resolve, plan, orphans)
    ensures ok <==> forall m :: m in ids && !Parses(m) ==> !resolve(m).Unresolvable?
  {
    hide Parses, Planned, Entry, PlanMeans;
    ok, plan, orphans := true, [], [];
    NothingListed(resolve);
    for n := 0 to |ids|
      invariant Planned(resolve, ids[..n], plan, orphans)
      invariant forall k :: 0 <= k < n && !Parses(ids[k]) ==> !resolve(ids[k]).Unresolvable?
    {
      var m := ids[n];
      assert ids[..n + 1] == ids[..n] + [m];
      PlanGrows(resolve, ids[..n], plan, orphans, m);
      if !Parses(m) {
        match resolve(m)
        case Found(_) => plan := plan + [Entry(resolve, m)];
        case NotFound => orphans := orphans + [m];
        case Unresolvable =>
          assert m in ids;
          return false, plan, orphans;
      }
    }
    assert ids[..|ids|] == ids;
    PlannedMeans(resolve, ids, plan, orphans);
  }

  lemma NothingListed(resolve: Resolver)
    ensures Planned(resolve, [], [], [])
  {
  }

  lemma LegacySnoc(plan: seq<Rebind>, r: Rebind, m: Text)
    ensures IsLegacy(plan + [r], m) <==> IsLegacy(plan, m) || r.legacy == m
  {
    var plan' := plan + [r];
    if IsLegacy(plan, m) {
      var k :| 0 <= k < |plan| && plan[k].legacy == m;
      assert plan'[k].legacy == m;
    }
    assert plan'[|plan|] == r;
  }

  lemma EntryLegacy(resolve: Resolver, m: Text)
    requires resolve(m).Found?
    ensures Entry(resolve, m).legacy == m
  {
  }

  lemma PlanGrows(resolve: Resolver, ids: seq<Text>, plan: seq<Rebind>, orphans: seq<Text>, m: Text)
    requires Planned(resolve, ids, plan, orphans)
    ensures Parses(m) ==> Planned(resolve, ids + [m], plan, orphans)
    ensures !Parses(m) && resolve(m).Found? ==> Planned(resolve, ids + [m], plan + [Entry(resolve, m)], orphans)
    ensures !Parses(m) && resolve(m).NotFound? ==> Planned(resolve, ids + [m], plan, orphans + [m])
  {
    hide Parses, IsLegacy, Entry;
    if resolve(m).Found? {
      var r := Entry(resolve, m);
      EntryLegacy(resolve, m);
      forall x ensures IsLegacy(plan + [r], x) <==> IsLegacy(plan, x) || m == x {
        LegacySnoc(plan, r, x);
      }
    }
  }

  /** Legacy identities do not parse and scoped ones do, so the two never meet. */
  lemma PlanIsDisjoint(resolve: Resolver, ids: seq<Text>, plan: seq<Rebind>, orphans: seq<Text>)
    requires GoodResolver(resolve) && Planned(resolve, ids, plan, orphans)
    ensures Disjoint(plan)
    ensures forall k :: 0 <= k < |plan| ==> Parses(plan[k].scoped)
  {
    forall k | 0 <= k < |plan| ensures Parses(plan[k].scoped) {
      ParseOfScoped(resolve(plan[k].legacy).scope);
    }
  }

  /** After pruning and rebinding every identity left in the tables is scoped. */
  lemma OnlyScopedLeft(resolve: Resolver, t: Tables, ids: seq<Text>, plan: seq<Rebind>, orphans: seq<Text>, t1: Tables, a: Text)
    requires GoodResolver(resolve) && Planned(resolve, ids, plan, orphans) && ValidPlan(plan)
    requires forall m :: m in ids <==> Holds(t, m)
    requires Pruned(t, Members(orphans), t1)
    requires Holds(RebindAll(t1, Active(t1, plan)), a)
    ensures Parses(a)
  {
    hide Parses, Planned, RebindAll, Active, ValidPlan, Disjoint, Pruned;
    PlanIsDisjoint(resolve, ids, plan, orphans);
    ActiveSuffices(t1, plan);
    RebindKeepsKeys(t1, plan);
    var t2 := RebindAll(t1, plan);
    if a in t2.snapshots {
      RebindMergesSnapshots(t1, plan, a);
      SourceIsEntry(plan, a);
      if a !in t1.snapshots {
        assert Source(plan, a).Some?;
      } else {
        KeptIdentity(resolve, t, ids, plan, orphans, t1, a);
      }
    } else {
      var id :| id in t2.updates && t2.updates[id].update.toAgent == a;
      RebindRoutesRows(t1, plan, id);
      var from := t1.updates[id].update.toAgent;
      RouteTarget(plan, from);
      RouteIsNotLegacy(plan, from);
      if Route(plan, from) == from {
        KeptIdentity(resolve, t, ids, plan, orphans, t1, from);
      }
    }
  }

  /** An identity that survives the pruning and is no legacy entry was scoped before. */
  lemma KeptIdentity(resolve: Resolver, t: Tables, ids: seq<Text>, plan: seq<Rebind>, orphans: seq<Text>, t1: Tables, a: Text)
    requires Planned(resolve, ids, plan, orphans) && (forall m :: m in ids <==> Holds(t, m))
    requires Pruned(t, Members(orphans), t1) && Holds(t1, a) && !IsLegacy(plan, a)
    ensures Parses(a)
  {
    assert a !in orphans;
    assert Holds(t, a);
  }

  lemma SomethingLegacy(resolve: Resolver, ids: seq<Text>, plan: seq<Rebind>, orphans: seq<Text>)
    requires Planned(resolve, ids, plan, orphans) && (plan != [] || orphans != [])
    ensures exists m :: m in ids && !Parses(m)
  {
    hide Parses, Entry;
    if plan != [] {
      assert FromLegacy(resolve, ids, plan[0]);
    } else {
      assert IsOrphan(resolve, ids, orphans[0]);
    }
  }

  lemma NothingPlanned(resolve: Resolver, ids: seq<Text>, plan: seq<Rebind>, orphans: seq<Text>)
    requires Planned(resolve, ids, plan, orphans) && forall m :: m in ids ==> Parses(m)
    ensures plan == [] && orphans == []
  {
    hide Parses, Planned;
    if plan != [] || orphans != [] {
      SomethingLegacy(resolve, ids, plan, orphans);
    }
  }

  lemma NothingPruned(t: Tables)
    ensures Pruned(t, Members([]), t)
  {
  }

  lemma AllPlaced(resolve: Resolver, ids: seq<Text>, plan: seq<Rebind>, orphans: seq<Text>)
    requires Planned(resolve, ids, plan, orphans)
    ensures forall m :: m in ids && ParseScoped(m).None? ==> m in orphans || IsLegacy(plan, m)
  {
    hide ParseScoped;
  }

  /** The closing verification pass. */
  method AllParse(ids: seq<Text>) returns (ok: bool)
    ensures ok <==> forall m :: m in ids ==> Parses(m)
  {
    hide ParseScoped;
    for n := 0 to |ids|
      invariant forall k :: 0 <= k < n ==> Parses(ids[k])
    {
      if ParseScoped(ids[n]).None? {
        assert ids[n] in ids;
        return false;
      }
    }
    return true;
  }

  /** migrateLegacyActorMailboxes. With a resolver that yields well-formed scopes
      the closing verification never fails, and a scoped database is left alone. */
  method Migrate(db: Database, resolve: Resolver, pruneFails: bool, failAt: Option<nat>)
      returns (r: MigrateResult, ghost plan: seq<Rebind>, ghost orphans: seq<Text>, ghost mid: Tables)
    modifies db
    ensures r.ResolveFailed? || r.PruneFailed? ==> db.View() == old(db.View())
    ensures !r.ResolveFailed? && !r.PruneFailed? ==> Pruned(old(db.View()), Members(orphans), mid)
    ensures !r.ResolveFailed? ==> PlanMeans(resolve, plan, orphans)
    ensures !r.ResolveFailed? ==>
              forall a :: Holds(old(db.View()), a) && ParseScoped(a).None? ==> a in orphans || IsLegacy(plan, a)
    ensures r.RebindFailed? ==> db.View() == mid
    ensures r.Migrated? || r.StillLegacy? ==> ValidPlan(plan) && db.View() == RebindAll(mid, Active(mid, plan))
    ensures r.Migrated? ==> forall a :: Holds(db.View(), a) ==> Parses(a)
    ensures r.StillLegacy? ==> !GoodResolver(resolve)
    ensures (forall a :: Holds(old(db.View()), a) ==> Parses(a)) && r.Migrated? ==> plan == [] && orphans == []
  {
    hide Planned, Pruned, Holds, RebindAll, Active, ValidPlan, GoodResolver, PlanMeans, ParseScoped, IsLegacy;
    var ids := db.MailboxIdentities();
    var ok, plan', orphans' := Classify(resolve, ids);
    plan, orphans, mid := plan', orphans', db.View();
    if !ok {
      r := ResolveFailed;
      return;
    }
    AllPlaced(resolve, ids, plan, orphans);
    NothingPruned(db.View());
    if |orphans'| > 0 {
      var pruned := db.PruneMailboxes(orphans', pruneFails);
      if !pruned.Rebound? {
        r := PruneFailed;
        return;
      }
    }
    mid := db.View();
    var moved := db.RebindMailboxes(plan', failAt);
    if !moved.Rebound? {
      r := RebindFailed;
      return;
    }
    if forall m :: m in ids ==> Parses(m) {
      NothingPlanned(resolve, ids, plan, orphans);
    }
    if GoodResolver(resolve) {
      forall a | Holds(db.View(), a) ensures Parses(a) {
        OnlyScopedLeft(resolve, old(db.View()), ids, plan, orphans, mid, a);
      }
    }
    var after := db.MailboxIdentities();
    ok := AllParse(after);
    r := if ok then Migrated else StillLegacy;
  }
}
