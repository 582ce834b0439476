/** The update record, the durable update table, and the order in which one
    agent's unprocessed rows are replayed. */
module Updates {

  newtype byte = x: int | 0 <= x < 256
  type Memory = seq<byte>
  // Ids and contents are byte strings, as in Go.
  type Text = seq<byte>

  datatype Update = Update(
    id: Text,
    toAgent: Text,
    fromAgent: Text,
    kind: Text,
    content: Text,
    trajectory: Text,
    createdAt: int)

  datatype Row = Row(update: Update, processed: bool)

  // update_id is the primary key of the table.
  type Log = map<Text, Row>

  /** Byte-wise text order, as used by ORDER BY on a TEXT column. */
  predicate TextLess(a: Text, b: Text) {
    if b == [] then false
    else if a == [] then true
    else a[0] < b[0] || (a[0] == b[0] && TextLess(a[1..], b[1..]))
  }

  /** ORDER BY created_at, update_id. */
  predicate Precedes(u: Update, v: Update) {
    u.createdAt < v.createdAt || (u.createdAt == v.createdAt && TextLess(u.id, v.id))
  }

  predicate Ordered(us: seq<Update>) {
    forall j, k :: 0 <= j < k < |us| ==> Precedes(us[j], us[k])
  }

  ghost predicate LogOk(log: Log) {
    forall id <- log :: id != [] && log[id].update.id == id
  }

  predicate Stored(log: Log, u: Update) {
    u.id in log && log[u.id].update == u
  }

  predicate IsProcessed(log: Log, id: Text) {
    id in log && log[id].processed
  }

  predicate Pending(log: Log, agent: Text, id: Text) {
    id in log && !log[id].processed && log[id].update.toAgent == agent
  }

  function PendingIds(log: Log, agent: Text): set<Text> {
    set id | id in log && Pending(log, agent, id)
  }

  /** The result of SELECT ... WHERE to_agent_id = ? AND processed_at IS NULL
      ORDER BY created_at, update_id: exactly the pending rows, in order. */
  predicate IsBacklog(log: Log, agent: Text, us: seq<Update>) {
    && Ordered(us)
    && (forall k :: 0 <= k < |us| ==> Stored(log, us[k]) && Pending(log, agent, us[k].id))
    && (forall id :: id in log && Pending(log, agent, id) ==> exists k :: 0 <= k < |us| && us[k].id == id)
  }

  /** The table only grows, rows keep their content, and no processed row is reopened. */
  ghost predicate Extends(log: Log, log': Log) {
    forall id :: id in log ==>
      id in log' && log'[id].update == log[id].update && (log[id].processed ==> log'[id].processed)
  }

  function Append(log: Log, u: Update): (r: Log)
    ensures LogOk(log) && u.id != [] ==> LogOk(r)
    ensures Extends(log, r)
  {
    if u.id in log then log else log[u.id := Row(u, false)]
  }

  function MarkProcessed(log: Log, agent: Text, id: Text): (r: Log)
    ensures LogOk(log) ==> LogOk(r)
    ensures Extends(log, r)
    ensures r.Keys == log.Keys
  {
    if Pending(log, agent, id) then log[id := log[id].(processed := true)] else log
  }

  // ---------------------------------------------------------------- the order

  lemma {:induction false} TextLessIrreflexive(a: Text)
    ensures !TextLess(a, a)
  {
    if a != [] {
      TextLessIrreflexive(a[1..]);
    }
  }

  lemma {:induction false} TextLessTransitive(a: Text, b: Text, c: Text)
    requires TextLess(a, b) && TextLess(b, c)
    ensures TextLess(a, c)
    decreases |a|
  {
    if a != [] && a[0] == b[0] == c[0] {
      TextLessTransitive(a[1..], b[1..], c[1..]);
    }
  }

  lemma {:induction false} TextLessConnected(a: Text, b: Text)
    ensures a == b || TextLess(a, b) || TextLess(b, a)
    decreases |a|
  {
    if a != [] && b != [] && a[0] == b[0] {
      TextLessConnected(a[1..], b[1..]);
      assert a == [a[0]] + a[1..] && b == [b[0]] + b[1..];
    }
  }

  /** n is where a comes before b: their first difference, with the smaller byte in
      a, or the end of a as a proper prefix of b. */
  predicate SmallerAt(a: Text, b: Text, n: nat) {
    n <= |a| && n < |b| && a[..n] == b[..n] && (n == |a| || a[n] < b[n])
  }

  /** a is smaller than b at the first byte where they differ, or a proper prefix of it. */
  predicate SortsBefore(a: Text, b: Text) {
    exists n: nat :: n <= |a| && SmallerAt(a, b, n)
  }

  lemma SortsBeforeMeans(a: Text, b: Text)
    ensures TextLess(a, b) <==> SortsBefore(a, b)
  {
    TextLessMeans(a, b);
  }

  lemma {:induction false} TextLessMeans(a: Text, b: Text)
    ensures TextLess(a, b) <==> exists n: nat :: SmallerAt(a, b, n)
    decreases |a|
  {
    if a == [] || b == [] || a[0] != b[0] {
      forall n: nat | SmallerAt(a, b, n) ensures n == 0 {
        SmallerAtFirst(a, b, n);
      }
      assert TextLess(a, b) ==> SmallerAt(a, b, 0);
    } else {
      TextLessMeans(a[1..], b[1..]);
      if n: nat :| SmallerAt(a[1..], b[1..], n) {
        assert a[..n + 1] == [a[0]] + a[1..][..n] && b[..n + 1] == [b[0]] + b[1..][..n];
        assert SmallerAt(a, b, n + 1);
      }
      if n: nat :| SmallerAt(a, b, n) {
        SmallerTail(a, b, n);
      }
    }
  }

  lemma SmallerAtFirst(a: Text, b: Text, n: nat)
    requires SmallerAt(a, b, n)
    ensures n > 0 ==> a != [] && b != [] && a[0] == b[0]
  {
    if n > 0 {
      assert a[..n][0] == b[..n][0];
    }
  }

  lemma SmallerTail(a: Text, b: Text, n: nat)
    requires a != [] && b != [] && a[0] == b[0] && SmallerAt(a, b, n)
    ensures n > 0 && SmallerAt(a[1..], b[1..], n - 1)
  {
    if n > 0 {
      assert a[1..][..n - 1] == a[..n][1..] && b[1..][..n - 1] == b[..n][1..];
    }
  }

  /** The order of a backlog in plain terms: the older row first, and of two rows
      of one instant the one whose id is smaller byte by byte. */
  predicate Chronological(us: seq<Update>) {
    forall j, k :: 0 <= j < k < |us| ==>
      us[j].createdAt < us[k].createdAt || (us[j].createdAt == us[k].createdAt && SortsBefore(us[j].id, us[k].id))
  }

  lemma OrderedIsChronological(us: seq<Update>)
    ensures Ordered(us) <==> Chronological(us)
  {
    forall j, k | 0 <= j < k < |us|
      ensures Precedes(us[j], us[k]) <==>
              || us[j].createdAt < us[k].createdAt
              || (us[j].createdAt == us[k].createdAt && SortsBefore(us[j].id, us[k].id))
    {
      SortsBeforeMeans(us[j].id, us[k].id);
    }
  }

  lemma PrecedesIrreflexive(u: Update)
    ensures !Precedes(u, u)
  {
    TextLessIrreflexive(u.id);
  }

  lemma PrecedesTransitive(u: Update, v: Update, w: Update)
    requires Precedes(u, v) && Precedes(v, w)
    ensures Precedes(u, w)
  {
    if u.createdAt == v.createdAt == w.createdAt {
      TextLessTransitive(u.id, v.id, w.id);
    }
  }

  /** Distinct ids are always ordered one way or the other. */
  lemma PrecedesConnected(u: Update, v: Update)
    requires u.id != v.id
    ensures Precedes(u, v) || Precedes(v, u)
  {
    TextLessConnected(u.id, v.id);
  }

  /** The order fixes the backlog: one table has one backlog per agent. */
  lemma {:induction false} OrderedUnique(us: seq<Update>, vs: seq<Update>)
    requires Ordered(us) && Ordered(vs)
    requires forall u :: u in us <==> u in vs
    ensures us == vs
    decreases |us|
  {
    if us == [] {
      HeadMember(vs);
    } else {
      assert us[0] in vs && vs != [];
      assert vs[0] in us;
      HeadIsFirst(us, vs[0]);
      HeadIsFirst(vs, us[0]);
      if us[0] != vs[0] {
        PrecedesTransitive(us[0], vs[0], us[0]);
        PrecedesIrreflexive(us[0]);
      }
      forall u ensures u in us[1..] <==> u in vs[1..] {
        TailMembers(us, u);
        TailMembers(vs, u);
      }
      OrderedUnique(us[1..], vs[1..]);
      assert us == [us[0]] + us[1..] && vs == [vs[0]] + vs[1..];
    }
  }

  lemma HeadMember(us: seq<Update>)
    ensures us == [] || us[0] in us
  {
  }

  lemma HeadIsFirst(us: seq<Update>, u: Update)
    requires Ordered(us) && u in us
    ensures u == us[0] || Precedes(us[0], u)
  {
  }

  lemma TailMembers(us: seq<Update>, u: Update)
    requires Ordered(us) && us != []
    ensures u in us[1..] <==> u in us && u != us[0]
  {
    PrecedesIrreflexive(us[0]);
    if u in us && u != us[0] {
      var k :| 0 <= k < |us| && us[k] == u;
      assert us[1..][k - 1] == u;
    }
  }

  lemma BacklogMembers(log: Log, agent: Text, us: seq<Update>, u: Update)
    requires LogOk(log) && IsBacklog(log, agent, us)
    ensures u in us <==> Stored(log, u) && Pending(log, agent, u.id)
  {
  }

  lemma BacklogUnique(log: Log, agent: Text, us: seq<Update>, vs: seq<Update>)
    requires LogOk(log) && IsBacklog(log, agent, us) && IsBacklog(log, agent, vs)
    ensures us == vs
  {
    forall u ensures u in us <==> u in vs {
      BacklogMembers(log, agent, us, u);
      BacklogMembers(log, agent, vs, u);
    }
    OrderedUnique(us, vs);
  }

  // -------------------------------------------------------------------- merging

  /** Two ordered backlogs as one. */
  function Merge(us: seq<Update>, vs: seq<Update>): seq<Update>
    decreases |us| + |vs|
  {
    if us == [] then vs
    else if vs == [] then us
    else if Precedes(us[0], vs[0]) then [us[0]] + Merge(us[1..], vs)
    else [vs[0]] + Merge(us, vs[1..])
  }

  lemma {:induction false} MergeMembers(us: seq<Update>, vs: seq<Update>, u: Update)
    ensures u in Merge(us, vs) <==> u in us || u in vs
    decreases |us| + |vs|
  {
    if us != [] && vs != [] {
      assert us == [us[0]] + us[1..] && vs == [vs[0]] + vs[1..];
      if Precedes(us[0], vs[0]) {
        MergeMembers(us[1..], vs, u);
      } else {
        MergeMembers(us, vs[1..], u);
      }
    }
  }

  lemma BeforeAll(u: Update, us: seq<Update>)
    requires Ordered(us) && us != [] && Precedes(u, us[0])
    ensures forall v :: v in us ==> Precedes(u, v)
  {
    forall v | v in us ensures Precedes(u, v) {
      HeadIsFirst(us, v);
      if v != us[0] {
        PrecedesTransitive(u, us[0], v);
      }
    }
  }

  lemma OrderedCons(u: Update, us: seq<Update>)
    requires Ordered(us) && forall v :: v in us ==> Precedes(u, v)
    ensures Ordered([u] + us)
  {
  }

  lemma HeadBeforeTail(us: seq<Update>, v: Update)
    requires Ordered(us) && us != [] && v in us[1..]
    ensures Precedes(us[0], v)
  {
  }

  lemma {:induction false} MergeOrdered(us: seq<Update>, vs: seq<Update>)
    requires Ordered(us) && Ordered(vs)
    requires forall u, v :: u in us && v in vs ==> u.id != v.id
    ensures Ordered(Merge(us, vs))
    decreases |us| + |vs|
  {
    if us != [] && vs != [] {
      PrecedesConnected(us[0], vs[0]);
      var first, ps, qs := us[0], us[1..], vs;
      if Precedes(us[0], vs[0]) {
        BeforeAll(us[0], vs);
        MergeOrdered(us[1..], vs);
      } else {
        BeforeAll(vs[0], us);
        MergeOrdered(us, vs[1..]);
        first, ps, qs := vs[0], us, vs[1..];
      }
      forall v | v in Merge(ps, qs) ensures Precedes(first, v) {
        MergeMembers(ps, qs, v);
        if first == us[0] && v in us[1..] {
          HeadBeforeTail(us, v);
        }
        if first == vs[0] && v in vs[1..] {
          HeadBeforeTail(vs, v);
        }
      }
      OrderedCons(first, Merge(ps, qs));
    }
  }
}
