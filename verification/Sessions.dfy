/** Counter sessions of common/beuptransfer/counter_session.go: begin, snapshot,
    inspect, drain through the session, seal. */
module Sessions {
  import opened Text
  import opened Counters
  import opened Journals
  import opened Delivery
  import opened Settlement
  import opened Outboxes
  import Opening
  import A = Adapters
  import G = Guards

  // ---- Snapshot --------------------------------------------------------------------

  /** `samples` sees only which rows there are. */
  lemma SamplesByIndex(a: seq<Sample>, b: seq<Sample>)
    requires DistinctIds(a) && DistinctIds(b) && Index(a) == Index(b)
    ensures Samples(a) == Samples(b)
  {
    forall s ensures multiset(a)[s] == multiset(b)[s] {
      RowCount(a, s);
      RowCount(b, s);
    }
    assert multiset(a) == multiset(b);
    if Samples(a).Ok? { SamplesSpec(a, Samples(a).value); SamplesSpec(b, Samples(a).value); }
    if Samples(b).Ok? { SamplesSpec(b, Samples(b).value); SamplesSpec(a, Samples(b).value); }
  }

  lemma MergedDistinct(base: seq<Sample>, rows: seq<Sample>, right: seq<Sample>)
    requires DistinctIds(base) && DistinctIds(rows) && |right| == |rows|
    requires forall i :: 0 <= i < |rows| ==> right[i].Id() == rows[i].Id()
    ensures DistinctIds(Retired(base, rows) + right)
  {
    var left := Retired(base, rows);
    RetiredDistinct(base, rows);
    RetiredRows(base, rows);
    forall i, k | 0 <= i < k < |left + right| ensures (left + right)[i].Id() != (left + right)[k].Id() {
      if i < |left| && k >= |left| {
        assert left[i] in left;
        IndexRow(rows, k - |left|);
      }
    }
  }

  lemma {:induction false} RetiredDistinct(base: seq<Sample>, rows: seq<Sample>)
    requires DistinctIds(base)
    ensures DistinctIds(Retired(base, rows))
  {
    if base != [] {
      var init, s := base[..|base| - 1], base[|base| - 1];
      RetiredDistinct(init, rows);
      RetiredRows(init, rows);
      var r := Retired(init, rows);
      forall i | 0 <= i < |r| ensures r[i].Id() != s.Id() {
        assert r[i] in r;
        var k :| 0 <= k < |init| && init[k] == r[i];
        assert base[k].Id() != s.Id();
      }
    }
  }

  /** The rows in the map of `Snapshot`, in whatever order they are listed, are
      sorted into the same snapshot. */
  ghost predicate Merged(m: map<Identity, Sample>, base: seq<Sample>, rows: seq<Sample>) {
    && (forall id :: id in m <==> id in Index(base) || id in Index(rows))
    && (forall id :: id in m ==> m[id].Id() == id && m[id].Used() == At(Index(base), id).Plus(At(Index(rows), id)))
  }

  lemma ListedSnapshot(base: seq<Sample>, raw: seq<Sample>, rows: seq<Sample>, m: map<Identity, Sample>, out: seq<Sample>)
    requires Canonical(base) && Samples(raw) == Ok(rows)
    requires forall i :: 0 <= i < |rows| ==> !Overflows(base, rows[i])
    requires Merged(m, base, rows) && DistinctIds(out)
    requires Index(out).Keys == m.Keys
    requires forall id :: id in m ==> Index(out)[id] == m[id].Used()
    ensures Combine(base, raw) == Samples(out)
  {
    hide Canonical, Carried, Overflows, Retired, Merged, DistinctIds, Index, Samples;
    RowsFacts(base, raw, rows);
    var right := seq(|rows|, i requires 0 <= i < |rows| => Carried(base, rows[i]));
    CarriedIds(base, rows, right);
    MergedDistinct(base, rows, right);
    ListedIndex(base, rows, right, m, out);
    SamplesByIndex(Retired(base, rows) + right, out);
    CombineIs(base, raw, rows, Retired(base, rows), right);
  }

  lemma RowsFacts(base: seq<Sample>, raw: seq<Sample>, rows: seq<Sample>)
    requires Canonical(base) && Samples(raw) == Ok(rows)
    ensures ValidRows(rows) && DistinctIds(base) && DistinctIds(rows)
    ensures forall i :: 0 <= i < |rows| ==> ZERO.Within(At(Index(base), rows[i].Id()))
  {
    SamplesCanonical(raw);
    CanonicalIndex(base);
    CanonicalIndex(rows);
    hide Ordered, DistinctIds, Index, Samples;
  }

  lemma ListedIndex(base: seq<Sample>, rows: seq<Sample>, right: seq<Sample>, m: map<Identity, Sample>, out: seq<Sample>)
    requires ValidRows(rows) && DistinctIds(base) && DistinctIds(rows) && DistinctIds(Retired(base, rows) + right)
    requires forall i :: 0 <= i < |rows| ==> !Overflows(base, rows[i]) && ZERO.Within(At(Index(base), rows[i].Id()))
    requires |right| == |rows| && forall i :: 0 <= i < |rows| ==> right[i] == Carried(base, rows[i])
    requires Merged(m, base, rows) && Index(out).Keys == m.Keys
    requires forall id :: id in m ==> Index(out)[id] == m[id].Used()
    ensures Index(Retired(base, rows) + right) == Index(out)
  {
    hide DistinctIds, Carried, Overflows, Retired, Index;
    var all := Retired(base, rows) + right;
    forall id
      ensures id in Index(all) <==> id in Index(out)
      ensures id in Index(out) ==> Index(all)[id] == Index(out)[id]
    {
      CombinedRow(base, rows, Retired(base, rows), right, id);
    }
  }

  lemma CombineIs(base: seq<Sample>, raw: seq<Sample>, rows: seq<Sample>, left: seq<Sample>, right: seq<Sample>)
    requires Canonical(base) && Samples(raw) == Ok(rows) && ValidRows(rows)
    requires forall i :: 0 <= i < |rows| ==> !Overflows(base, rows[i]) && ZERO.Within(At(Index(base), rows[i].Id()))
    requires left == Retired(base, rows) && |right| == |rows| && forall i :: 0 <= i < |rows| ==> right[i] == Carried(base, rows[i])
    ensures Combine(base, raw) == Samples(left + right)
  {
    hide Samples, Canonical, Index, Retired;
    assert right == seq(|rows|, i requires 0 <= i < |rows| => Carried(base, rows[i]));
  }

  lemma {:induction false} IndexSize(rows: seq<Sample>)
    requires DistinctIds(rows)
    ensures |Index(rows)| == |rows|
  {
    if rows != [] {
      var init := rows[..|rows| - 1];
      IndexSize(init);
      LastIsNew(rows);
      assert Index(rows).Keys == Index(init).Keys + {rows[|rows| - 1].Id()};
    }
  }

  /** The sum is a 64-bit counter in both directions. */
  predicate Countable(u: Usage) { u.up <= MAX_INT64 && u.down <= MAX_INT64 }

  lemma OverflowExactly(base: seq<Sample>, raw: seq<Sample>, rows: seq<Sample>)
    requires DistinctIds(rows) && Index(rows) == Index(raw)
    ensures (exists i :: 0 <= i < |rows| && Overflows(base, rows[i])) <==> exists id :: id in Index(raw) && !Countable(At(Index(base), id).Plus(At(Index(raw), id)))
  {
    hide Index, DistinctIds;
    if i :| 0 <= i < |rows| && Overflows(base, rows[i]) {
      IndexRow(rows, i);
      assert !Countable(At(Index(base), rows[i].Id()).Plus(At(Index(raw), rows[i].Id())));
    }
    if id :| id in Index(raw) && !Countable(At(Index(base), id).Plus(At(Index(raw), id))) {
      var i := IndexOf(rows, id);
      IndexRow(rows, i);
      assert Overflows(base, rows[i]);
    }
  }

  lemma MergedValid(base: seq<Sample>, rows: seq<Sample>, right: seq<Sample>)
    requires ValidRows(base) && ValidRows(rows) && |right| == |rows|
    requires forall i :: 0 <= i < |rows| ==> !Overflows(base, rows[i]) && ZERO.Within(At(Index(base), rows[i].Id())) && right[i] == Carried(base, rows[i])
    ensures ValidRows(Retired(base, rows) + right)
  {
    RetiredRows(base, rows);
    hide Index, ValidHex, Retired;
    var left := Retired(base, rows);
    forall i | 0 <= i < |left| ensures ValidRow(left[i]) {
      assert left[i] in left;
      var k :| 0 <= k < |base| && base[k] == left[i];
    }
  }

  lemma MergedSize(base: seq<Sample>, rows: seq<Sample>, left: seq<Sample>, right: seq<Sample>)
    requires ValidRows(rows) && DistinctIds(base) && DistinctIds(rows) && DistinctIds(left + right)
    requires forall i :: 0 <= i < |rows| ==> !Overflows(base, rows[i]) && ZERO.Within(At(Index(base), rows[i].Id()))
    requires |right| == |rows| && forall i :: 0 <= i < |rows| ==> right[i] == Carried(base, rows[i])
    requires left == Retired(base, rows)
    ensures |left + right| == |Index(base).Keys + Index(rows).Keys|
  {
    IndexSize(left + right);
    hide Index, DistinctIds, Carried, Overflows, Retired, ValidRow;
    forall id ensures id in Index(left + right) <==> id in Index(base) || id in Index(rows) { CombinedRow(base, rows, left, right, id); }
    assert Index(left + right).Keys == Index(base).Keys + Index(rows).Keys;
    assert |Index(left + right)| == |Index(left + right).Keys|;
  }

  /** A snapshot can be taken exactly when the raw counters are an inventory, no sum
      overflows and there are not too many identities in all. */
  lemma CombineExactly(base: seq<Sample>, raw: seq<Sample>)
    requires Canonical(base)
    ensures Combine(base, raw).Ok? <==>
            && Opening.Inventory(raw) && (forall id :: id in Index(raw) ==> Countable(At(Index(base), id).Plus(At(Index(raw), id))))
            && |Index(base).Keys + Index(raw).Keys| <= MAX_SAMPLES
  {
    Opening.InventoryExactly(raw);
    assert ValidRows(base);
    if Samples(raw).Ok? {
      var rows := Samples(raw).value;
      RowsFacts(base, raw, rows);
      SamplesIndex(raw);
      OverflowExactly(base, raw, rows);
      if forall i :: 0 <= i < |rows| ==> !Overflows(base, rows[i]) {
        var right := seq(|rows|, i requires 0 <= i < |rows| => Carried(base, rows[i]));
        hide Samples, Canonical, Index, Retired, DistinctIds, Overflows, Carried, Combine, Countable;
        CarriedIds(base, rows, right);
        MergedDistinct(base, rows, right);
        MergedValid(base, rows, right);
        MergedSize(base, rows, Retired(base, rows), right);
        CombineIs(base, raw, rows, Retired(base, rows), right);
        Opening.InventoryExactly(Retired(base, rows) + right);
      } else {
        hide Samples, Canonical, Index, DistinctIds, Overflows, Countable;
      }
    }
  }

  /** `CounterSession.Snapshot` on what the inner adapter reports. */
  method SnapshotRows(base: seq<Sample>, raw: seq<Sample>) returns (r: Result<seq<Sample>>)
    requires Canonical(base)
    ensures r == Combine(base, raw)
  {
    var checked := CheckSamples(raw);
    if checked.Fail? {
      return checked;
    }
    var rows := checked.value;
    SamplesCanonical(raw);
    CanonicalIndex(base);
    CanonicalIndex(rows);
    var merged := MergeCounters(base, rows);
    if merged.None? {
      return Fail(ErrOther);
    }
    var out := ListRows(merged.value);
    ListedSnapshot(base, raw, rows, merged.value, out);
    r := CheckSamples(out);
  }

  method MergeCounters(base: seq<Sample>, rows: seq<Sample>) returns (r: Option<map<Identity, Sample>>)
    requires DistinctIds(base) && DistinctIds(rows) && ValidRows(rows)
    requires NonNegative(Index(base))
    ensures r.None? <==> exists i :: 0 <= i < |rows| && Overflows(base, rows[i])
    ensures r.Some? ==> Merged(r.value, base, rows)
  {
    hide Index, DistinctIds, ValidHex;
    var m := ReadBase(base);
    EmptyMerge(m, base);
    for i := 0 to |rows|
      invariant forall k :: 0 <= k < i ==> !Overflows(base, rows[k])
      invariant Merged(m, base, rows[..i])
    {
      var s := rows[i];
      NewRow(rows, i);
      var b := if s.Id() in m then m[s.Id()].Used() else ZERO;
      MergeStep(m, base, rows[..i], s, b);
      if s.upload > MAX_INT64 - b.up || s.download > MAX_INT64 - b.down {
        assert Overflows(base, rows[i]);
        return None;
      }
      var more := Sample(s.uid, s.credential, s.upload + b.up, s.download + b.down);
      MergeOne(m, base, rows[..i], rows[..i + 1], s, more);
      m := m[s.Id() := more];
    }
    assert rows[..|rows|] == rows;
    return Some(m);
  }

  lemma NewRow(rows: seq<Sample>, i: int)
    requires DistinctIds(rows) && 0 <= i < |rows|
    ensures rows[i].Id() !in Index(rows[..i]) && Index(rows[..i + 1]) == Index(rows[..i])[rows[i].Id() := rows[i].Used()]
  {
    assert rows[..i + 1][..i] == rows[..i] && rows[..i + 1][i] == rows[i];
    LastIsNew(rows[..i + 1]);
  }

  method ReadBase(base: seq<Sample>) returns (m: map<Identity, Sample>)
    ensures m.Keys == Index(base).Keys
    ensures forall id :: id in m ==> m[id].Id() == id && m[id].Used() == Index(base)[id]
  {
    m := map[];
    for i := 0 to |base|
      invariant m.Keys == Index(base[..i]).Keys
      invariant forall id :: id in m ==> m[id].Id() == id && m[id].Used() == Index(base[..i])[id]
    {
      assert base[..i + 1][..i] == base[..i];
      m := m[base[i].Id() := base[i]];
    }
    assert base[..|base|] == base;
  }

  lemma EmptyMerge(m: map<Identity, Sample>, base: seq<Sample>)
    requires m.Keys == Index(base).Keys
    requires forall id :: id in m ==> m[id].Id() == id && m[id].Used() == Index(base)[id]
    ensures Merged(m, base, [])
  {
    assert Index([]) == map[];
    forall id | id in m ensures m[id].Used() == At(Index(base), id).Plus(At(Index([]), id)) { PlusMinus(At(Index(base), id), ZERO); }
  }

  lemma MergeStep(m: map<Identity, Sample>, base: seq<Sample>, done: seq<Sample>, s: Sample, b: Usage)
    requires Merged(m, base, done) && s.Id() !in Index(done) && NonNegative(Index(base))
    requires b == if s.Id() in m then m[s.Id()].Used() else ZERO
    ensures b == At(Index(base), s.Id()) && ZERO.Within(b)
  {
    PlusMinus(At(Index(base), s.Id()), ZERO);
    hide Index;
  }

  lemma MergeOne(m: map<Identity, Sample>, base: seq<Sample>, done: seq<Sample>, more: seq<Sample>, s: Sample, t: Sample)
    requires Merged(m, base, done) && s.Id() !in Index(done)
    requires Index(more) == Index(done)[s.Id() := s.Used()]
    requires t.Id() == s.Id() && t.Used() == s.Used().Plus(At(Index(base), s.Id()))
    ensures Merged(m[s.Id() := t], base, more)
  {
    hide Index;
    PlusMinus(At(Index(base), s.Id()), s.Used());
    var n := m[s.Id() := t];
    forall id ensures id in n <==> id in Index(base) || id in Index(more) { }
    forall id | id in n ensures n[id].Id() == id && n[id].Used() == At(Index(base), id).Plus(At(Index(more), id)) {
      if id != s.Id() { assert id in m && At(Index(more), id) == At(Index(done), id); }
    }
  }

  method ListRows(m: map<Identity, Sample>) returns (out: seq<Sample>)
    requires forall id :: id in m ==> m[id].Id() == id
    ensures DistinctIds(out) && Index(out).Keys == m.Keys
    ensures forall id :: id in m ==> Index(out)[id] == m[id].Used()
  {
    var left := m.Keys;
    out := [];
    while left != {}
      invariant left <= m.Keys && DistinctIds(out) && Index(out).Keys == m.Keys - left
      invariant forall id :: id in m && id !in left ==> Index(out)[id] == m[id].Used()
    {
      var id :| id in left;
      var s := m[id];
      assert (out + [s])[..|out|] == out;
      AppendDistinct(out, s);
      out := out + [s];
      left := left - {id};
    }
  }

  lemma AppendDistinct(out: seq<Sample>, s: Sample)
    requires DistinctIds(out) && s.Id() !in Index(out)
    ensures DistinctIds(out + [s])
  {
    forall i | 0 <= i < |out| ensures out[i].Id() != s.Id() { IndexRow(out, i); }
  }

  // ---- the session object ---------------------------------------------------------------

  function IdsOf(rows: seq<Sample>): seq<Identity> { seq(|rows|, i requires 0 <= i < |rows| => rows[i].Id()) }

  /** What the environment does in the course of one `Seal`: the snapshots and commits
      it answers, and what other goroutines do to the adapter before the first and
      before the second round of inspections. */
  datatype SealEnv = SealEnv(
    raw: Result<seq<Sample>>, before: seq<A.Step>, zeroth: Exchange, first: Exchange, stage: Write, second: Exchange,
    check: Result<seq<Sample>>, during: seq<A.Step>, seal: Write)

  /** A newly created adapter. */
  predicate Brandnew(a: A.State) { A.Unused(a) && a.holds == {} && a.restored == {} && !a.quiescing }

  /** Every drained identity has a committed row. */
  ghost predicate Counted(j: Journal) { forall d :: d in j.drains ==> j.drains[d].request.identity in Index(j.committed) }

  lemma BegunDrains(j: Journal, process: string, unclean: bool, now: int)
    requires Begun(j, process, unclean, now).Ok?
    ensures var k := Begun(j, process, unclean, now).value; k.drains == j.drains && k.committed == j.committed && (Counted(k) <==> Counted(j))
  {
    hide ValidHex;
  }

  /** The rows of a journal can all be restored on a new adapter. */
  lemma RestoresAll(base: seq<Sample>)
    requires Canonical(base)
    ensures |base| <= MAX_SAMPLES && (forall i :: 0 <= i < |base| ==> base[i].Id().uid > 0 && ValidHex(base[i].Id().credential, 32))
    ensures forall i, k :: 0 <= i < k < |base| ==> base[i].Id() != base[k].Id()
  {
    OrderedDistinct(base);
    hide ValidHex, Before;
  }

  lemma IdsSet(base: seq<Sample>)
    ensures (set i | 0 <= i < |IdsOf(base)| :: IdsOf(base)[i]) == (set i | 0 <= i < |base| :: base[i].Id())
  {
    var a, b := set i | 0 <= i < |IdsOf(base)| :: IdsOf(base)[i], set i | 0 <= i < |base| :: base[i].Id();
    forall x | x in b ensures x in a {
      var i :| 0 <= i < |base| && base[i].Id() == x;
      assert IdsOf(base)[i] == x;
    }
  }

  lemma FencesExactly(a: A.State, j: Sound, base: seq<Sample>)
    requires a.holds == {} && a.restored == (set i | 0 <= i < |base| :: base[i].Id()) && base == j.committed
    ensures (forall id :: id in (set d | d in j.drains :: j.drains[d].request.identity) ==> A.Fenceable(a, id)) <==> Counted(j)
  {
    IndexKeys(base);
    forall d | d in j.drains ensures A.Fenceable(a, j.drains[d].request.identity) <==> j.drains[d].request.identity in Index(j.committed) {
      assert DrainOk(d, j.drains[d], j);
      var id := j.drains[d].request.identity;
      if id in Index(base) {
        var i :| 0 <= i < |base| && base[i].Id() == id;
      }
      if id in a.restored {
        var i :| 0 <= i < |base| && base[i].Id() == id;
      }
    }
    hide WellFormed, Index, A.Fenceable;
    if Counted(j) {
      forall id | id in (set d | d in j.drains :: j.drains[d].request.identity) ensures A.Fenceable(a, id) {
        var d :| d in j.drains && j.drains[d].request.identity == id;
      }
    }
    if forall id :: id in (set d | d in j.drains :: j.drains[d].request.identity) ==> A.Fenceable(a, id) {
      forall d | d in j.drains ensures j.drains[d].request.identity in Index(j.committed) {
        assert j.drains[d].request.identity in (set d | d in j.drains :: j.drains[d].request.identity);
      }
    }
  }

  /** The flush of a seal goes through, in either mode. */
  ghost predicate Settles(n: Node, legacy: bool, rows: seq<Sample>, env: SealEnv) {
    if legacy then SealFlushReady(n, rows, env.zeroth, env.stage, env.second) else FlushReady(n, rows, env.first, env.stage, env.second)
  }

  class CounterSession {
    const box: Outbox
    const inner: A.GuardAdapter
    const base: seq<Sample>
    const process: string
    const uncertain: bool
    var isSealed: bool

    /** The session the process holds, unless the outbox has moved on. */
    ghost predicate Valid()
      reads this, box, box.store, box.receiver, inner, inner.guard
    {
      && box.Valid() && Canonical(base) && A.Inv(inner.View()) && inner.tag != ""
      && (box.state.session.Some? && box.state.session.value.process == process ==> box.live == Some(Live(process, base, uncertain)))
    }

    constructor (box: Outbox, inner: A.GuardAdapter, base: seq<Sample>, process: string, uncertain: bool)
      ensures this.box == box && this.inner == inner && this.base == base && this.process == process && this.uncertain == uncertain && !isSealed
    {
      this.box, this.inner, this.base, this.process, this.uncertain, this.isSealed := box, inner, base, process, uncertain, false;
    }

    /** BeginCounterSession and ResumeUncleanCounterSession. A session that opens
        holds every drained identity and carries the mark of an unclean resume. */
    static method Begin(box: Outbox, process: string, inner: A.GuardAdapter, raw: Result<seq<Sample>>, unclean: bool, now: int, w: Write,
                        leaseId: Identity -> string, c: G.Clock) returns (r: Result<CounterSession>)
      requires box.Valid() && Timely(box.View(), DoBegin(process, unclean, now, w)) && A.Inv(inner.View()) && inner.tag != ""
      modifies box`state, box`poisoned, box`segments, box`live, box.store, inner`restored, inner`holds, inner.guard`leases, inner.guard`seen, inner.guard`asked
      ensures box.Valid() && Moves(old(box.View()), box.View()) && A.Inv(inner.View())
      ensures r.Ok? ==> raw == Ok([]) && fresh(r.value) && r.value.box == box && r.value.inner == inner && r.value.process == process && r.value.Valid()
      ensures r.Ok? ==>
                && !box.poisoned && box.store.journal == Some(box.state) && Begun(old(box.state), process, unclean, now) == Ok(box.state)
                && r.value.base == box.state.committed && r.value.uncertain == Uncertain(box.state) && (unclean ==> r.value.uncertain)
      // no later run of the adapter admits a session for an identity with a recorded drain
      ensures r.Ok? ==> forall id :: id in box.state.drains ==>
                box.state.drains[id].request.identity in inner.holds && A.KeptOut(inner.View(), box.state.drains[id].request.identity)
      // on a new adapter a session that may begin and is saved opens exactly when every drained identity has a committed row
      ensures Brandnew(old(inner.View())) ==>
                (r.Ok? <==> ValidHex(process, 16) && raw == Ok([]) && !old(box.poisoned) && Begun(old(box.state), process, unclean, now).Ok? && w == Saved
                            && Counted(old(box.state)))
    {
      hide WellFormed, Backed, Moves, A.KeptOut, A.Inv, Counted;
      MovesNot(box.View());
      ghost var was := box.View();
      if !ValidHex(process, 16) {
        return Fail(ErrCoverage);
      }
      if raw.Fail? {
        return Fail(raw.error);
      }
      if |raw.value| != 0 {
        return Fail(ErrCoverage);
      }
      var saved := Enter(box, process, unclean, now, w);
      if saved.Fail? {
        return Fail(saved.error);
      }
      BegunDrains(was.node.value.state, process, unclean, now);
      var base, mark := box.state.committed, box.state.session.value.recovery.Some?;
      var attached := Attach(box, inner, leaseId, c);
      if attached.Fail? {
        return Fail(attached.error);
      }
      var session := new CounterSession(box, inner, base, process, mark);
      return Ok(session);
    }

    /** Restores the rows of the journal in the adapter and fences the drained identities. */
    static method Attach(box: Outbox, inner: A.GuardAdapter, leaseId: Identity -> string, c: G.Clock) returns (r: Result<()>)
      requires box.Valid() && !box.poisoned && A.Inv(inner.View())
      modifies inner`restored, inner`holds, inner.guard`leases, inner.guard`seen, inner.guard`asked
      ensures A.Inv(inner.View())
      ensures r.Ok? ==> forall id :: id in box.state.drains ==>
                box.state.drains[id].request.identity in inner.holds && A.KeptOut(inner.View(), box.state.drains[id].request.identity)
      ensures Brandnew(old(inner.View())) ==> (r.Ok? <==> Counted(box.state))
    {
      hide WellFormed, Backed, A.KeptOut, A.Inv, Counted;
      var base := box.state.committed;
      SoundState(box.View());
      r := inner.RestoreSealedIdentities(IdsOf(base));
      A.RestoredKeeps(old(inner.View()), inner.View());
      RestoresAll(base);
      if r.Fail? {
        return;
      }
      SealedDisk(box.View());
      IdsSet(base);
      if Brandnew(old(inner.View())) { FencesExactly(inner.View(), box.state, base); }
      ghost var before := inner.View();
      r := inner.FenceAll((set d | d in box.state.drains :: box.state.drains[d].request.identity), leaseId, c);
      assert A.Inv(before) && A.Fencing(before, inner.View());
      if r.Ok? {
        forall id | id in box.state.drains ensures A.KeptOut(inner.View(), box.state.drains[id].request.identity) {
          A.HeldKeptOut(inner.View(), box.state.drains[id].request.identity);
        }
      }
    }

    /** The new session in the journal. */
    static method Enter(box: Outbox, process: string, unclean: bool, now: int, w: Write) returns (r: Result<()>)
      requires box.Valid() && Timely(box.View(), DoBegin(process, unclean, now, w)) && ValidHex(process, 16)
      modifies box`state, box`poisoned, box`segments, box`live, box.store
      ensures box.Valid() && Moves(old(box.View()), box.View())
      ensures r.Ok? <==> !old(box.poisoned) && Begun(old(box.state), process, unclean, now).Ok? && w == Saved
      ensures r.Ok? ==>
                && !box.poisoned && box.store.journal == Some(box.state) && Begun(old(box.state), process, unclean, now) == Ok(box.state)
                && box.live == Some(Live(process, box.state.committed, box.state.session.value.recovery.Some?)) && Canonical(box.state.committed)
    {
      hide WellFormed, Backed, Moves, ValidHex, Canonical;
      MovesNot(box.View());
      ghost var s := box.View();
      BeginKeeps(s, process, unclean, now, w);
      MovesBy(s, DoBegin(process, unclean, now, w));
      if box.poisoned {
        return Fail(ErrUncertain);
      }
      var next := Begun(box.state, process, unclean, now);
      if next.Fail? {
        return Fail(next.error);
      }
      SoundState(s);
      r := box.Save(next.value, w, if unclean then box.segments + Abandoned(box.state) else box.segments);
      if r.Ok? {
        box.live := Some(Live(process, next.value.committed, next.value.session.value.recovery.Some?));
      }
    }

    method Snapshot(raw: Result<seq<Sample>>) returns (r: Result<seq<Sample>>)
      requires Canonical(base)
      ensures r == if isSealed then Fail(ErrEpoch) else if raw.Fail? then raw else Combine(base, raw.value)
    {
      if isSealed {
        return Fail(ErrEpoch);
      }
      if raw.Fail? {
        return raw;
      }
      r := SnapshotRows(base, raw.value);
    }

    /** `Drain` with this session as the adapter: `env` holds the raw counters. A proof
        names the carried base plus the counters of this process and leaves no flow of
        its identity. Through an uncertain session no proof is ever created, nor an old
        one returned. */
    method Drain(r: DrainRequest, env: DrainEnv) returns (p: Result<DrainProof>)
      requires Valid()
      modifies box`state, box`poisoned, box`segments, box.store, box.receiver, inner, inner.guard
      ensures Valid() && Moves(old(box.View()), box.View())
      ensures uncertain ==> p.Fail? && forall id :: IsProved(box.state, id) ==> IsProved(old(box.state), id)
      ensures p.Ok? ==> box.store.journal == Some(box.state) && r.id in box.state.drains && box.state.drains[r.id] == DrainRecord(r, Some(p.value))
      ensures p.Ok? ==> A.Hushed(inner.View(), r.identity)
      ensures p.Ok? && !IsProved(old(box.state), r.id) ==>
                && !isSealed && env.rows.Ok? && Combine(base, env.rows.value) == Ok(box.state.committed) && Holds(box.state.committed, p.value.final)
                && inner.View() == A.Run(AtFirst(old(inner.View()), r.identity, env), env.during)
    {
      hide WellFormed, Backed, Moves, Canonical, Combine, A.Inv, A.Hushed, A.InspectTo, A.Run, A.FenceTo, Samples, Holds, ContainsFinal, Inv;
      var rows := Snapshot(env.rows);
      var check := Snapshot(env.check);
      if rows.Ok? { SnapshotSorted(base, env.rows.value); }
      p := box.Drain(r, inner, Through(Live(process, base, uncertain)), env.(rows := rows, check := check));
      if p.Ok? && !IsProved(old(box.state), r.id) { RowHeld(rows.value, box.state.committed, p.value.final); }
    }

    /** `closed`: every row's identity is inspected and found closed. */
    method CheckClosed(rows: seq<Sample>) returns (r: Result<()>)
      ensures r.Ok? <==> AllClosed(inner.View(), rows)
    {
      for i := 0 to |rows|
        invariant forall k :: 0 <= k < i ==> Quiet(Ok(A.InspectTo(inner.View(), inner.epoch, rows[k].Id())), rows[k].Id(), box.epoch)
      {
        var s := inner.Inspect(rows[i].Id());
        if s.epoch != box.epoch || s.identity != rows[i].Id() {
          return Fail(ErrCoverage);
        }
        if !s.trackingReady || !s.rejectNew || s.bindings < 1 || s.outstanding != 0 {
          return Fail(ErrPending);
        }
      }
      return Ok(());
    }

    /** In this state of the adapter the identity of every row is closed. */
    ghost predicate AllClosed(a: A.State, rows: seq<Sample>) {
      forall i :: 0 <= i < |rows| ==> Quiet(Ok(A.InspectTo(a, inner.epoch, rows[i].Id())), rows[i].Id(), box.epoch)
    }

    /** `Seal`: success means that everything is fenced and idle, that the last two
        snapshots agree, that exactly this snapshot is committed, acknowledged and on
        disk as sealed, with nothing pending, and that no flow of any of its identities
        is running, nor will be without a lasting mark. `fenced` is the adapter's state
        after the fencing. */
    method Seal(env: SealEnv, leaseId: Identity -> string, c: G.Clock) returns (r: Result<()>, ghost fenced: A.State)
      requires Valid()
      modifies this`isSealed, box`state, box`poisoned, box`segments, box.store, box.receiver, inner, inner.guard
      ensures Valid() && Moves(old(box.View()), box.View())
      ensures r.Ok? ==> !box.poisoned && box.store.journal == Some(box.state) && IsSealed(box.state) && box.state.session.value.process == process
      ensures r.Ok? && !IsSealed(old(box.state)) ==>
                && isSealed && SealedWith(env, box.state, old(box.segments), box.segments) && Inspections(env, fenced, inner.View(), box.state.committed)
                && fenced.quiescing && forall i :: 0 <= i < |box.state.committed| ==> A.Hushed(inner.View(), box.state.committed[i].Id())
      ensures r.Fail? ==> IsSealed(box.state) == IsSealed(old(box.state))
    {
      hide WellFormed, Backed, Moves, Canonical, Combine, A.Inv;
      MovesNot(box.View());
      ghost var s := box.View();
      var quiet := inner.Quiesce(leaseId, c);
      fenced := inner.View();
      if quiet.Fail? {
        return Fail(quiet.error), fenced;
      }
      quiet := inner.FenceAll((set x | x in IdsOf(base)), leaseId, c);
      fenced := inner.View();
      if quiet.Fail? {
        return Fail(quiet.error), fenced;
      }
      if box.poisoned {
        return Fail(ErrUncertain), fenced;
      }
      if box.state.session.None? || box.state.session.value.process != process {
        return Fail(ErrEpoch), fenced;
      }
      if box.state.session.value.isSealed {
        SealedDisk(box.View());
        return Ok(()), fenced;
      }
      r := SealOpen(env);
    }

    /** `Seal` once everything is fenced and the session is still open. */
    method SealOpen(env: SealEnv) returns (r: Result<()>)
      requires Valid() && !box.poisoned && box.state.session.Some? && box.state.session.value.process == process && !IsSealed(box.state)
      modifies this`isSealed, box`state, box`poisoned, box`segments, box.store, box.receiver, inner, inner.guard
      ensures Valid() && Moves(old(box.View()), box.View())
      ensures r.Ok? ==> !box.poisoned && box.store.journal == Some(box.state) && IsSealed(box.state) && box.state.session.value.process == process
      ensures r.Ok? ==> isSealed && SealedWith(env, box.state, old(box.segments), box.segments) && Inspections(env, old(inner.View()), inner.View(), box.state.committed)
      ensures r.Ok? ==> forall i :: 0 <= i < |box.state.committed| ==> A.Hushed(inner.View(), box.state.committed[i].Id())
      ensures r.Fail? ==> !IsSealed(box.state)
      ensures r.Ok? <==> old(SealReady(box.View().node.value, inner.View(), env))
    {
      hide WellFormed, Backed, Moves, Canonical, Combine, A.Inv, AllClosed, A.Hushed, Settles, A.Run;
      ghost var s := box.View();
      MovesNot(s);
      SessionBase(s);
      var rows := FlushOnce(env);
      if rows.Fail? {
        return Fail(rows.error);
      }
      ghost var t := box.View();
      var after := Snapshot(env.check);
      if after.Fail? {
        return Fail(after.error);
      }
      var done := Quieted(after.value, env.during);
      if done.Fail? {
        return Fail(done.error);
      }
      if rows.value != after.value {
        return Fail(ErrPending);
      }
      CombineCanonicalRaw(base, env.raw.value);
      r := box.SaveSealed(process, Samples(env.raw.value).value, env.seal);
      MovesOn(s, t, box.View());
      if r.Ok? {
        isSealed := true;
      }
    }

    /** The first snapshot, inspected, flushed and acknowledged. */
    method FlushOnce(env: SealEnv) returns (r: Result<seq<Sample>>)
      requires Valid() && !box.poisoned && box.state.session.Some? && box.state.session.value.process == process && !IsSealed(box.state)
      modifies box`state, box`poisoned, box`segments, box.store, box.receiver, inner, inner.guard
      ensures Valid() && Moves(old(box.View()), box.View()) && SameHolds(old(box.View()), box.View()) && box.segments == old(box.segments)
      ensures r.Ok? <==> old(OnceReady(box.View().node.value, inner.View(), env))
      ensures r.Ok? ==>
                && !box.poisoned && box.state.committed == r.value && box.state.pending.None? && box.state.lastAck.Some? && !isSealed
                && env.raw.Ok? && Combine(base, env.raw.value) == r && inner.View() == A.Run(old(inner.View()), env.before) && AllClosed(inner.View(), r.value)
    {
      hide WellFormed, Backed, Moves, Canonical, Combine, A.Inv, AllClosed, A.Hushed, A.Run, Settles;
      MovesNot(box.View());
      r := Snapshot(env.raw);
      if r.Fail? {
        return;
      }
      var done := Quieted(r.value, env.before);
      if done.Fail? {
        return Fail(done.error);
      }
      CombineSpec(base, env.raw.value);
      done := Settle(r.value, env);
      if done.Fail? {
        return Fail(done.error);
      }
    }

    /** Lets the others act, then inspects every row. */
    method Quieted(rows: seq<Sample>, others: seq<A.Step>) returns (r: Result<()>)
      requires A.Inv(inner.View()) && inner.tag != ""
      modifies inner, inner.guard
      ensures inner.View() == A.Run(old(inner.View()), others) && A.Inv(inner.View())
      ensures r.Ok? <==> AllClosed(inner.View(), rows)
      ensures r.Ok? ==> forall i :: 0 <= i < |rows| ==> A.Hushed(inner.View(), rows[i].Id())
    {
      hide A.Inv, A.Silent, A.Run;
      A.RunKeeps(inner.View(), others);
      inner.Elapse(others);
      r := CheckClosed(rows);
      if r.Ok? {
        forall i | 0 <= i < |rows| ensures A.Hushed(inner.View(), rows[i].Id()) { A.InspectMeansSilent(inner.View(), inner.epoch, rows[i].Id()); }
      }
    }

    /** The first round: the snapshot can be taken, every identity in it is closed, and it is
        acknowledged. */
    ghost predicate OnceReady(n: Node, a: A.State, env: SealEnv)
      reads this, box
    {
      && !isSealed && env.raw.Ok? && Canonical(base) && Combine(base, env.raw.value).Ok?
      && AllClosed(A.Run(a, env.before), Combine(base, env.raw.value).value) && Settles(n, box.legacy, Combine(base, env.raw.value).value, env)
    }

    /** ... and the second: the snapshot has not moved, every identity is still closed, and
        the seal is saved. */
    ghost predicate SealReady(n: Node, a: A.State, env: SealEnv)
      reads this, box
    {
      && OnceReady(n, a, env) && env.check.Ok? && Combine(base, env.check.value) == Combine(base, env.raw.value)
      && AllClosed(A.Run(A.Run(a, env.before), env.during), Combine(base, env.raw.value).value) && env.seal == Saved
    }

    /** What a successful `Seal` of an open session has established. */
    ghost predicate SealedWith(env: SealEnv, j: Journal, before: seq<Segment>, after: seq<Segment>)
    {
      && env.raw.Ok? && env.check.Ok? && Samples(env.raw.value).Ok? && Canonical(base)
      && Combine(base, env.raw.value) == Ok(j.committed) == Combine(base, env.check.value)
      && j.pending.None? && after == before + [Segment(Samples(env.raw.value).value, true)]
    }

    /** Every identity was found closed in both rounds, with others acting before each. */
    ghost predicate Inspections(env: SealEnv, fenced: A.State, last: A.State, rows: seq<Sample>) {
      && last == A.Run(A.Run(fenced, env.before), env.during)
      && AllClosed(A.Run(fenced, env.before), rows) && AllClosed(last, rows)
    }

    /** The flush of `Seal`, in either mode. */
    method Settle(rows: seq<Sample>, env: SealEnv) returns (r: Result<()>)
      requires Valid() && Canonical(rows)
      modifies box`state, box`poisoned, box`segments, box.store, box.receiver
      ensures Valid() && Moves(old(box.View()), box.View())
      ensures SameHolds(old(box.View()), box.View()) && box.segments == old(box.segments)
      ensures r.Ok? ==> !box.poisoned && box.state.committed == rows && box.state.pending.None? && box.state.lastAck.Some?
      ensures r.Ok? <==> Settles(old(box.View()).node.value, box.legacy, rows, env)
    {
      hide WellFormed, Backed, Moves, Canonical, FlushReady, SealFlushReady;
      if box.legacy {
        r := box.FlushLegacySeal(rows, env.zeroth, env.first, env.stage, env.second);
      } else {
        ghost var s := box.View();
        FlushDrains(s, rows, env.first, env.stage, env.second);
        FlushSegments(s, rows, env.first, env.stage, env.second);
        if FlushTo(s, rows, env.first, env.stage, env.second).result.Ok? { FlushCommits(s, rows, env.first, env.stage, env.second); }
        SamplesOfCanonical(rows);
        FlushExactly(s, rows, env.first, env.stage, env.second);
        var ack := box.Flush(rows, env.first, env.stage, env.second);
        r := if ack.Fail? then Fail(ack.error) else Ok(());
      }
    }
  }

  /** `RestoreFences`: every recorded drain is held again, so that no later run of the
      adapter admits a session for its identity. */
  method RestoreFences(box: Outbox, inner: A.GuardAdapter?, leaseId: Identity -> string, c: G.Clock) returns (r: Result<()>)
    requires inner != null ==> A.Inv(inner.View())
    modifies if inner == null then {} else {inner, inner.guard}
    ensures box.poisoned ==> r == Fail(ErrUncertain)
    ensures !box.poisoned && inner == null ==> r == Fail(ErrCoverage)
    ensures inner != null ==> A.Inv(inner.View()) && old(inner.holds) <= inner.holds
    ensures r.Ok? ==> inner != null && forall id :: id in box.state.drains ==> A.KeptOut(inner.View(), box.state.drains[id].request.identity)
    ensures !box.poisoned && inner != null && A.Unused(old(inner.View())) ==>
              (r.Ok? <==> forall id :: id in box.state.drains ==> A.Fenceable(old(inner.View()), box.state.drains[id].request.identity))
  {
    hide A.Inv, A.KeptOut, A.Fenceable;
    if box.poisoned {
      return Fail(ErrUncertain);
    }
    if inner == null {
      return Fail(ErrCoverage);
    }
    r := inner.FenceAll((set d | d in box.state.drains :: box.state.drains[d].request.identity), leaseId, c);
    assert forall id :: id in box.state.drains ==> box.state.drains[id].request.identity in (set d | d in box.state.drains :: box.state.drains[d].request.identity);
    if r.Ok? {
      forall id | id in box.state.drains ensures A.KeptOut(inner.View(), box.state.drains[id].request.identity) {
        A.HeldKeptOut(inner.View(), box.state.drains[id].request.identity);
      }
    }
  }

  /** A drain of an identity without a row is recorded all the same, here in the first
      session of an epoch: as long as the row is missing, no later session opens on a
      new adapter. */
  lemma StrandedDrain(scope: string, epoch: string, process: string, now: int, r: DrainRequest)
    requires ValidScope(scope) && ValidHex(epoch, 16) && ValidHex(process, 16) && ValidRequest(r)
    ensures var s := Run(Boot(scope, epoch), [DoStart(Saved), DoBegin(process, false, now, Saved), DoHold(r, Saved)]);
            && s.disk.Some? && r.id in s.disk.value.drains && s.disk.value.drains[r.id].request == r && s.disk.value.session.Some? && !Counted(s.disk.value)
            && ClockSet(Boot(scope, epoch), [DoStart(Saved), DoBegin(process, false, now, Saved), DoHold(r, Saved)])
  {
    hide ValidHex, ValidScope, ValidRequest;
    var a, b, c := DoStart(Saved), DoBegin(process, false, now, Saved), DoHold(r, Saved);
    var f := Fresh(scope, epoch);
    var s0 := Boot(scope, epoch);
    var s1 := s0.(disk := Some(f), node := Some(Node(f, false, None)));
    assert Next(s0, a) == s1;
    var k := f.(session := Some(Session(process, [], false, None)));
    assert Begun(f, process, false, now) == Ok(k);
    var s2 := s1.(disk := Some(k), node := Some(Node(k, false, Some(Live(process, [], false)))));
    assert Next(s1, b) == s2;
    assert Next(s2, c).disk == Some(Held(k, r));
    assert [a, b, c][1..] == [b, c] && [b, c][1..] == [c] && [c][1..] == [];
    RunThree(s0, a, b, c);
    assert Held(k, r).committed == [] && Index([]) == map[];
  }

  lemma RunThree(s: Sys, a: Step, b: Step, c: Step)
    ensures Run(s, [a, b, c]) == Next(Next(Next(s, a), b), c)
    ensures Timely(s, a) && Timely(Next(s, a), b) && Timely(Next(Next(s, a), b), c) ==> ClockSet(s, [a, b, c])
  {
    hide Next, Timely;
    assert [a, b, c][1..] == [b, c] && [b, c][1..] == [c] && [c][1..] == [];
    var t := Next(Next(s, a), b);
    assert Run(s, [a, b, c]) == Run(Next(s, a), [b, c]) == Run(t, [c]) == Run(Next(t, c), []);
    if Timely(s, a) && Timely(Next(s, a), b) && Timely(t, c) {
      assert ClockSet(Next(t, c), []);
      assert ClockSet(t, [c]);
      assert ClockSet(Next(s, a), [b, c]);
    }
  }

  lemma SnapshotSorted(base: seq<Sample>, raw: seq<Sample>)
    requires Canonical(base) && Combine(base, raw).Ok?
    ensures Samples(Combine(base, raw).value) == Combine(base, raw)
  {
    CombineSpec(base, raw);
    SamplesOfCanonical(Combine(base, raw).value);
  }

  lemma SessionBase(s: Good)
    requires s.node.Some? && !s.node.value.poisoned && s.node.value.live.Some?
    ensures s.node.value.state.session.Some? && s.node.value.live.value.base == s.node.value.state.session.value.base
  {
    hide WellFormed, Backed;
  }

  lemma SealedDisk(s: Good)
    requires s.node.Some? && !s.node.value.poisoned
    ensures s.disk == Some(s.node.value.state)
  {
    hide WellFormed, Backed;
  }

  lemma SoundState(s: Good)
    requires s.node.Some? && !s.node.value.poisoned
    ensures Canonical(s.node.value.state.committed)
  {
  }

  lemma CombineCanonicalRaw(base: seq<Sample>, raw: seq<Sample>)
    requires Canonical(base) && Combine(base, raw).Ok?
    ensures Samples(raw).Ok? && Canonical(Samples(raw).value) && Combine(base, Samples(raw).value) == Combine(base, raw)
  {
    SamplesCanonical(raw);
    SamplesOfCanonical(Samples(raw).value);
  }
}
