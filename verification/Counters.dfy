/** Cumulative counter rows, their canonical form, the delta between two
    inventories and the canonical wire text of a batch
    (common/beuptransfer/outbox.go). */
module Counters {
  import opened Text

  const MAX_INT64 := 0x7FFF_FFFF_FFFF_FFFF
  const MAX_SAMPLES := 10000
  const MAX_SEQUENCE := 0x20_0000_0000_0000 // 1 << 53

  type Int64 = x: int | -MAX_INT64 - 1 <= x <= MAX_INT64

  datatype Error = ErrEpoch | ErrUncertain | ErrPending | ErrCoverage | ErrUnsealed | ErrOther

  datatype Result<+T> = Ok(value: T) | Fail(error: Error)

  datatype Option<+T> = None | Some(value: T)

  datatype Identity = Identity(uid: Int64, credential: string)

  datatype Sample = Sample(uid: Int64, credential: string, upload: Int64, download: Int64) {
    function Id(): Identity { Identity(uid, credential) }
    function Used(): Usage { Usage(upload, download) }
  }

  /** Bytes in both directions. */
  datatype Usage = Usage(up: int, down: int) {
    function Plus(o: Usage): Usage { Usage(up + o.up, down + o.down) }
    function Minus(o: Usage): Usage { Usage(up - o.up, down - o.down) }
    predicate Within(o: Usage) { up <= o.up && down <= o.down }
  }

  const ZERO := Usage(0, 0)

  lemma PlusMinus(a: Usage, b: Usage)
    ensures a.Plus(b.Minus(a)) == b && a.Plus(b) == b.Plus(a) && a.Plus(ZERO) == a == ZERO.Plus(a)
  {
  }

  /** `fmt.Sprintf("%020d:%s", UID, Credential)`. */
  function Key(s: Sample): string {
    var u: int := s.uid;
    (if u >= 0 then Padded(u, 20) else "-" + Padded(0 - u, 19)) + ":" + s.credential
  }

  predicate Before(a: Sample, b: Sample) { Less(Key(a), Key(b)) }

  predicate ValidRow(s: Sample) {
    s.uid > 0 && ValidHex(s.credential, 32) && s.upload >= 0 && s.download >= 0
  }

  predicate Ordered(rows: seq<Sample>) {
    forall i, j :: 0 <= i < j < |rows| ==> Before(rows[i], rows[j])
  }

  /** What `samples` returns: valid rows, sorted by key, one per identity. */
  predicate Canonical(rows: seq<Sample>) {
    |rows| <= MAX_SAMPLES && (forall i :: 0 <= i < |rows| ==> ValidRow(rows[i])) && Ordered(rows)
  }

  // ---- the key -------------------------------------------------------------

  lemma Power10Of20()
    ensures MAX_INT64 < Power10(20)
  {
    assert Power10(5) == 100000;
    assert Power10(10) == 100000 * Power10(5);
    assert Power10(15) == 100000 * Power10(10);
    assert Power10(20) == 100000 * Power10(15);
  }

  /** For every positive 64-bit UID the key is injective and its string order is
      the order of (UID, credential). */
  lemma KeyOrder(a: Sample, b: Sample)
    requires a.uid > 0 && b.uid > 0
    ensures Before(a, b) <==> a.uid < b.uid || (a.uid == b.uid && Less(a.credential, b.credential))
    ensures Key(a) == Key(b) <==> a.Id() == b.Id()
  {
    Power10Of20();
    var p, q := Padded(a.uid, 20), Padded(b.uid, 20);
    PaddedOrder(a.uid, b.uid, 20);
    PaddedOrder(b.uid, a.uid, 20);
    hide Padded, Power10;
    var x, y := ":" + a.credential, ":" + b.credential;
    assert Key(a) == p + x && Key(b) == q + y;
    if a.uid == b.uid {
      LessAfterPrefix(p, x, y);
      LessAfterPrefix(":", a.credential, b.credential);
      assert Key(a)[21..] == a.credential && Key(b)[21..] == b.credential;
    } else {
      assert Key(a)[..20] == p && Key(b)[..20] == q;
      if a.uid < b.uid {
        LessByHead(p, q, x, y);
      } else {
        LessByHead(q, p, y, x);
        if Before(a, b) {
          LessTransitive(Key(a), Key(b), Key(a));
          LessIrreflexive(Key(a));
        }
      }
    }
  }

  lemma BeforeStrict(a: Sample, b: Sample)
    ensures !Before(a, a) && !(Before(a, b) && Before(b, a))
    ensures Before(a, b) || Before(b, a) || Key(a) == Key(b)
  {
    LessIrreflexive(Key(a));
    LessTotal(Key(a), Key(b));
    if Before(a, b) && Before(b, a) { LessTransitive(Key(a), Key(b), Key(a)); }
  }

  // ---- samples -------------------------------------------------------------

  predicate WeaklyOrdered(rows: seq<Sample>) {
    forall i, j :: 0 <= i < j < |rows| ==> !Before(rows[j], rows[i])
  }

  predicate DistinctIds(rows: seq<Sample>) {
    forall i, j :: 0 <= i < j < |rows| ==> rows[i].Id() != rows[j].Id()
  }

  function Insert(s: Sample, rows: seq<Sample>): (r: seq<Sample>)
    ensures multiset(r) == multiset(rows) + multiset{s}
  {
    if rows == [] then [s]
    else
      var last := rows[|rows| - 1];
      assert rows == rows[..|rows| - 1] + [last];
      if !Before(s, last) then rows + [s] else Insert(s, rows[..|rows| - 1]) + [last]
  }

  function Sorted(rows: seq<Sample>): (r: seq<Sample>)
    ensures multiset(r) == multiset(rows) && |r| == |rows|
  {
    if rows == [] then []
    else
      assert rows == rows[..|rows| - 1] + [rows[|rows| - 1]];
      var r := Insert(rows[|rows| - 1], Sorted(rows[..|rows| - 1]));
      assert |r| == |multiset(r)|;
      r
  }

  lemma InsertBelow(s: Sample, init: seq<Sample>, last: Sample)
    requires Before(s, last) && forall i :: 0 <= i < |init| ==> !Before(last, init[i])
    ensures var r := Insert(s, init); forall i :: 0 <= i < |r| ==> !Before(last, r[i])
  {
    BeforeStrict(s, last);
    hide Before;
    var r := Insert(s, init);
    forall i | 0 <= i < |r| ensures !Before(last, r[i]) {
      assert r[i] in multiset(r);
      assert r[i] in multiset(init) || r[i] == s;
      assert r[i] in init || r[i] == s;
    }
  }

  lemma AppendAbove(s: Sample, a: Sample, last: Sample)
    requires !Before(last, a) && !Before(s, last)
    ensures !Before(s, a)
  {
    LessTotal(Key(a), Key(last));
    if Before(s, a) && Before(a, last) { LessTransitive(Key(s), Key(a), Key(last)); }
  }

  lemma {:induction false} InsertKeepsOrder(s: Sample, rows: seq<Sample>)
    requires WeaklyOrdered(rows)
    ensures WeaklyOrdered(Insert(s, rows))
  {
    hide Before;
    if rows != [] {
      var init, last := rows[..|rows| - 1], rows[|rows| - 1];
      if Before(s, last) {
        InsertKeepsOrder(s, init);
        InsertBelow(s, init, last);
      } else {
        forall i | 0 <= i < |rows| - 1 ensures !Before(s, rows[i]) { AppendAbove(s, rows[i], last); }
      }
    }
  }

  lemma {:induction false} SortedIsOrdered(rows: seq<Sample>)
    ensures WeaklyOrdered(Sorted(rows))
  {
    if rows != [] {
      SortedIsOrdered(rows[..|rows| - 1]);
      InsertKeepsOrder(rows[|rows| - 1], Sorted(rows[..|rows| - 1]));
    }
  }

  /** Strict neighbours make a strict order. */
  lemma {:induction false} NeighboursOrder(rows: seq<Sample>)
    requires forall i :: 1 <= i < |rows| ==> Before(rows[i - 1], rows[i])
    ensures Ordered(rows)
  {
    if |rows| > 1 {
      var init := rows[..|rows| - 1];
      NeighboursOrder(init);
      forall i | 0 <= i < |rows| - 1 ensures Before(rows[i], rows[|rows| - 1]) {
        if i < |rows| - 2 {
          assert Before(init[i], init[|init| - 1]);
          LessTransitive(Key(rows[i]), Key(rows[|rows| - 2]), Key(rows[|rows| - 1]));
        }
      }
      forall i, j | 0 <= i < j < |rows| ensures Before(rows[i], rows[j]) {
        if j < |rows| - 1 { assert Before(init[i], init[j]); }
      }
    }
  }

  predicate Repeats(rows: seq<Sample>, i: int)
    requires 1 <= i < |rows|
  {
    Key(rows[i - 1]) == Key(rows[i])
  }

  /** `samples`: copy, validate, sort by key, refuse duplicates. */
  function Samples(rows: seq<Sample>): Result<seq<Sample>> {
    if |rows| > MAX_SAMPLES || (exists i :: 0 <= i < |rows| && !ValidRow(rows[i])) then Fail(ErrOther)
    else
      var out := Sorted(rows);
      if exists i :: 1 <= i < |out| && Repeats(out, i) then Fail(ErrOther) else Ok(out)
  }

  lemma {:induction false} PermutedValid(a: seq<Sample>, b: seq<Sample>)
    requires multiset(a) == multiset(b)
    requires forall i :: 0 <= i < |a| ==> ValidRow(a[i])
    ensures forall i :: 0 <= i < |b| ==> ValidRow(b[i])
  {
    forall i | 0 <= i < |b| ensures ValidRow(b[i]) {
      assert b[i] in multiset(b);
      assert b[i] in a;
    }
  }

  lemma SamplesCanonical(rows: seq<Sample>)
    requires Samples(rows).Ok?
    ensures Canonical(Samples(rows).value) && multiset(Samples(rows).value) == multiset(rows)
  {
    var out := Samples(rows).value;
    SortedIsOrdered(rows);
    PermutedValid(rows, out);
    forall i | 1 <= i < |out| ensures Before(out[i - 1], out[i]) {
      assert !Repeats(out, i);
      BeforeStrict(out[i - 1], out[i]);
    }
    NeighboursOrder(out);
  }

  lemma CountAt(rows: seq<Sample>, i: int)
    requires 0 <= i < |rows|
    ensures multiset(rows) == multiset(rows[..i]) + multiset{rows[i]} + multiset(rows[i + 1..])
  {
    assert rows == rows[..i] + [rows[i]] + rows[i + 1..];
  }

  lemma WithoutLast(rows: seq<Sample>)
    requires rows != []
    ensures rows == rows[..|rows| - 1] + [rows[|rows| - 1]]
    ensures multiset(rows[..|rows| - 1]) == multiset(rows) - multiset{rows[|rows| - 1]}
    ensures Ordered(rows) ==> Ordered(rows[..|rows| - 1])
  {
    assert rows == rows[..|rows| - 1] + [rows[|rows| - 1]];
  }

  lemma SameLength(a: seq<Sample>, b: seq<Sample>)
    requires multiset(a) == multiset(b)
    ensures |a| == |b|
  {
    assert |a| == |multiset(a)| == |multiset(b)| == |b|;
  }

  lemma LastAfter(rows: seq<Sample>, i: int)
    requires Ordered(rows) && 0 <= i < |rows|
    ensures rows[i] == rows[|rows| - 1] || Before(rows[i], rows[|rows| - 1])
  {
    hide Before;
  }

  lemma SameLast(a: seq<Sample>, b: seq<Sample>)
    requires Ordered(a) && Ordered(b) && multiset(a) == multiset(b) && a != [] && |a| == |b|
    ensures a[|a| - 1] == b[|b| - 1]
  {
    hide Ordered, Before;
    var n := |a| - 1;
    assert a[n] in multiset(b) && b[n] in multiset(a);
    var i :| 0 <= i < |b| && b[i] == a[n];
    var j :| 0 <= j < |a| && a[j] == b[n];
    LastAfter(b, i);
    LastAfter(a, j);
    BeforeStrict(a[n], b[n]);
  }

  /** There is only one canonical arrangement of given rows. */
  lemma {:induction false} CanonicalUnique(a: seq<Sample>, b: seq<Sample>)
    requires Ordered(a) && Ordered(b) && multiset(a) == multiset(b)
    ensures a == b
    decreases |a|
  {
    SameLength(a, b);
    if |a| > 0 {
      var n := |a| - 1;
      SameLast(a, b);
      WithoutLast(a);
      WithoutLast(b);
      CanonicalUnique(a[..n], b[..n]);
    }
  }

  lemma OrderedDistinct(rows: seq<Sample>)
    requires Ordered(rows)
    ensures DistinctIds(rows)
  {
    forall i, j | 0 <= i < j < |rows| ensures rows[i].Id() != rows[j].Id() {
      assert Before(rows[i], rows[j]);
      LessIrreflexive(Key(rows[i]));
    }
  }

  lemma Once(a: seq<Sample>, p: int)
    requires DistinctIds(a) && 0 <= p < |a|
    ensures multiset(a)[a[p]] == 1
  {
    CountAt(a, p);
    assert a[p] !in a[..p] && a[p] !in a[p + 1..];
  }

  lemma Twice(b: seq<Sample>, i: int, j: int)
    requires 0 <= i < j < |b| && b[i] == b[j]
    ensures multiset(b)[b[i]] >= 2
  {
    CountAt(b, i);
    assert b[i + 1..][j - i - 1] == b[i];
  }

  /** Distinctness does not depend on the arrangement. */
  lemma DistinctTransfers(a: seq<Sample>, b: seq<Sample>)
    requires DistinctIds(a) && multiset(a) == multiset(b)
    ensures DistinctIds(b)
  {
    forall i, j | 0 <= i < j < |b| ensures b[i].Id() != b[j].Id() {
      assert b[i] in multiset(a) && b[j] in multiset(a);
      var p :| 0 <= p < |a| && a[p] == b[i];
      var q :| 0 <= q < |a| && a[q] == b[j];
      Once(a, p);
      if b[i] == b[j] { Twice(b, i, j); }
    }
  }

  /** `samples` succeeds exactly on small inventories of valid rows without a
      repeated identity, and then returns the unique canonical arrangement. */
  lemma SamplesSpec(rows: seq<Sample>, out: seq<Sample>)
    ensures Samples(rows) == Ok(out) <==> Canonical(out) && multiset(out) == multiset(rows)
    ensures Samples(rows).Ok? <==>
            |rows| <= MAX_SAMPLES && (forall i :: 0 <= i < |rows| ==> ValidRow(rows[i])) && DistinctIds(rows)
  {
    if Samples(rows).Ok? {
      SamplesCanonical(rows);
      OrderedDistinct(Samples(rows).value);
      DistinctTransfers(Samples(rows).value, rows);
      if Canonical(out) && multiset(out) == multiset(rows) {
        CanonicalUnique(out, Samples(rows).value);
      }
    }
    if |rows| <= MAX_SAMPLES && (forall i :: 0 <= i < |rows| ==> ValidRow(rows[i])) && DistinctIds(rows) {
      var s := Sorted(rows);
      PermutedValid(rows, s);
      DistinctTransfers(rows, s);
      forall i | 1 <= i < |s| ensures !Repeats(s, i) {
        assert s[i - 1].Id() != s[i].Id();
        KeyOrder(s[i - 1], s[i]);
      }
    }
    if Canonical(out) && multiset(out) == multiset(rows) {
      PermutedValid(out, rows);
      OrderedDistinct(out);
      DistinctTransfers(out, rows);
      assert |rows| == |multiset(rows)| == |multiset(out)| == |out|;
    }
  }

  lemma SamplesOfCanonical(rows: seq<Sample>)
    requires Canonical(rows)
    ensures Samples(rows) == Ok(rows)
  {
    SamplesSpec(rows, rows);
  }

  /** The sort of the copy, as an insertion sort: any other sort by key gives the
      same rows wherever `samples` succeeds (`SamplesSpec`). */
  method SortRows(rows: seq<Sample>) returns (out: seq<Sample>)
    ensures out == Sorted(rows)
  {
    out := [];
    for i := 0 to |rows|
      invariant out == Sorted(rows[..i])
    {
      assert rows[..i + 1][..i] == rows[..i];
      out := Insert(rows[i], out);
    }
    assert rows[..|rows|] == rows;
  }

  method CheckSamples(rows: seq<Sample>) returns (r: Result<seq<Sample>>)
    ensures r == Samples(rows)
  {
    hide ValidRow, Repeats, Sorted;
    if |rows| > MAX_SAMPLES {
      return Fail(ErrOther);
    }
    for i := 0 to |rows|
      invariant forall k :: 0 <= k < i ==> ValidRow(rows[k])
    {
      if !ValidRow(rows[i]) {
        return Fail(ErrOther);
      }
    }
    var out := SortRows(rows);
    var i := 1;
    while i < |out|
      invariant 1 <= i
      invariant forall k :: 1 <= k < i && k < |out| ==> !Repeats(out, k)
    {
      if Repeats(out, i) {
        return Fail(ErrOther);
      }
      i := i + 1;
    }
    return Ok(out);
  }

  // ---- lookups -------------------------------------------------------------

  /** The map every loop over rows builds: the last row of an identity wins. */
  function Index(rows: seq<Sample>): map<Identity, Usage> {
    if rows == [] then map[]
    else Index(rows[..|rows| - 1])[rows[|rows| - 1].Id() := rows[|rows| - 1].Used()]
  }

  /** A missing key reads as the zero row. */
  function At(m: map<Identity, Usage>, id: Identity): Usage {
    if id in m then m[id] else ZERO
  }

  predicate Covers(before: map<Identity, Usage>, after: map<Identity, Usage>) {
    forall id :: id in before ==> id in after && before[id].Within(after[id])
  }

  lemma {:induction false} IndexKeys(rows: seq<Sample>)
    ensures forall id :: id in Index(rows) <==> exists i :: 0 <= i < |rows| && rows[i].Id() == id
  {
    if rows != [] {
      var init := rows[..|rows| - 1];
      IndexKeys(init);
      forall id ensures id in Index(rows) <==> exists i :: 0 <= i < |rows| && rows[i].Id() == id {
        if id in Index(init) {
          var i :| 0 <= i < |init| && init[i].Id() == id;
          assert rows[i].Id() == id;
        }
        if i :| 0 <= i < |rows| && rows[i].Id() == id {
          if i < |init| { assert init[i].Id() == id; }
        }
      }
    }
  }

  lemma {:induction false} IndexRow(rows: seq<Sample>, i: int)
    requires DistinctIds(rows) && 0 <= i < |rows|
    ensures rows[i].Id() in Index(rows) && Index(rows)[rows[i].Id()] == rows[i].Used()
  {
    if i < |rows| - 1 { IndexRow(rows[..|rows| - 1], i); }
  }

  /** Every entry of the index is some row. */
  lemma IndexOf(rows: seq<Sample>, id: Identity) returns (i: int)
    requires DistinctIds(rows) && id in Index(rows)
    ensures 0 <= i < |rows| && rows[i].Id() == id && rows[i].Used() == Index(rows)[id]
  {
    IndexKeys(rows);
    i :| 0 <= i < |rows| && rows[i].Id() == id;
    IndexRow(rows, i);
  }

  /** The arrangement of distinct rows does not change the index. */
  lemma IndexPermuted(a: seq<Sample>, b: seq<Sample>)
    requires DistinctIds(a) && multiset(a) == multiset(b)
    ensures Index(a) == Index(b)
  {
    DistinctTransfers(a, b);
    forall id ensures id in Index(a) <==> id in Index(b)
      ensures id in Index(a) ==> Index(a)[id] == Index(b)[id]
    {
      if id in Index(a) {
        var i := IndexOf(a, id);
        assert a[i] in multiset(b);
        var j :| 0 <= j < |b| && b[j] == a[i];
        IndexRow(b, j);
      }
      if id in Index(b) {
        var i := IndexOf(b, id);
        assert b[i] in multiset(a);
        var j :| 0 <= j < |a| && a[j] == b[i];
        IndexRow(a, j);
      }
    }
  }

  lemma CanonicalIndex(rows: seq<Sample>)
    requires Canonical(rows)
    ensures DistinctIds(rows)
    ensures forall id :: id in Index(rows) ==> ZERO.Within(Index(rows)[id])
    ensures forall id :: id in Index(rows) ==> id.uid > 0 && ValidHex(id.credential, 32)
  {
    OrderedDistinct(rows);
    forall id | id in Index(rows)
      ensures ZERO.Within(Index(rows)[id]) && id.uid > 0 && ValidHex(id.credential, 32)
    {
      var i := IndexOf(rows, id);
    }
  }

  /** Canonical rows are determined by their index. */
  lemma CanonicalByIndex(a: seq<Sample>, b: seq<Sample>)
    requires Canonical(a) && Canonical(b) && Index(a) == Index(b)
    ensures a == b
  {
    OrderedDistinct(a);
    OrderedDistinct(b);
    forall s ensures multiset(a)[s] == multiset(b)[s] {
      RowCount(a, s);
      RowCount(b, s);
    }
    CanonicalUnique(a, b);
  }

  lemma RowCount(rows: seq<Sample>, s: Sample)
    requires DistinctIds(rows)
    ensures multiset(rows)[s] == if s.Id() in Index(rows) && Index(rows)[s.Id()] == s.Used() then 1 else 0
  {
    if s in rows {
      var i :| 0 <= i < |rows| && rows[i] == s;
      Once(rows, i);
      IndexRow(rows, i);
    } else if s.Id() in Index(rows) {
      var i := IndexOf(rows, s.Id());
      assert rows[i] != s;
    }
  }

  // ---- delta ---------------------------------------------------------------

  function Reduced(s: Sample, p: Usage): Sample
    requires ZERO.Within(p) && p.Within(s.Used())
  {
    Sample(s.uid, s.credential, s.upload - p.up, s.download - p.down)
  }

  ghost predicate NonNegative(m: map<Identity, Usage>) {
    forall id :: id in m ==> ZERO.Within(m[id])
  }

  /** The loop of `delta` over the rows of `after` with its shrinking map. */
  function DeltaFrom(prior: map<Identity, Usage>, after: seq<Sample>): Result<seq<Sample>>
    requires NonNegative(prior)
  {
    if after == [] then (if prior == map[] then Ok([]) else Fail(ErrOther))
    else
      var s := after[0];
      var p := At(prior, s.Id());
      if s.upload < p.up || s.download < p.down then Fail(ErrEpoch)
      else
        var rest := DeltaFrom(prior - {s.Id()}, after[1..]);
        if rest.Fail? then rest else Ok([Reduced(s, p)] + rest.value)
  }

  ghost predicate ValidRows(rows: seq<Sample>) {
    forall i :: 0 <= i < |rows| ==> ValidRow(rows[i])
  }

  lemma {:induction false} IndexNonNegative(rows: seq<Sample>)
    requires ValidRows(rows)
    ensures NonNegative(Index(rows))
  {
    if rows != [] { IndexNonNegative(rows[..|rows| - 1]); }
  }

  function Delta(before: seq<Sample>, after: seq<Sample>): Result<seq<Sample>>
    requires ValidRows(before)
  {
    IndexNonNegative(before);
    DeltaFrom(Index(before), after)
  }

  /** Every prior row is still there. */
  ghost predicate Present(prior: map<Identity, Usage>, after: seq<Sample>) {
    forall id :: id in prior ==> exists i :: 0 <= i < |after| && after[i].Id() == id
  }

  /** No row is below its prior value. */
  ghost predicate Risen(prior: map<Identity, Usage>, after: seq<Sample>) {
    forall i :: 0 <= i < |after| ==> At(prior, after[i].Id()).Within(after[i].Used())
  }

  lemma DeltaRows(prior: map<Identity, Usage>, after: seq<Sample>)
    requires NonNegative(prior) && DistinctIds(after)
    ensures DeltaFrom(prior, after).Ok? <==> Present(prior, after) && Risen(prior, after)
    ensures DeltaFrom(prior, after).Ok? ==>
              var out := DeltaFrom(prior, after).value;
              |out| == |after| &&
              forall i :: 0 <= i < |after| ==>
                At(prior, after[i].Id()).Within(after[i].Used()) && ZERO.Within(At(prior, after[i].Id())) &&
                out[i] == Reduced(after[i], At(prior, after[i].Id()))
  {
    hide DistinctIds, DeltaFrom, Present;
    DeltaSucceeds(prior, after);
    if DeltaFrom(prior, after).Ok? { DeltaValues(prior, after); }
  }

  lemma NoRows(prior: map<Identity, Usage>)
    ensures Present(prior, []) <==> prior == map[]
  {
    assert prior != map[] ==> exists id :: id in prior;
  }

  lemma {:induction false} DeltaSucceeds(prior: map<Identity, Usage>, after: seq<Sample>)
    requires NonNegative(prior) && DistinctIds(after)
    ensures DeltaFrom(prior, after).Ok? <==> Present(prior, after) && Risen(prior, after)
  {
    if after == [] {
      NoRows(prior);
      hide Present;
    } else {
      hide Present, Risen, DistinctIds, Reduced;
      SamePrior(prior, after);
      DeltaSucceeds(prior - {after[0].Id()}, after[1..]);
      DeltaKeys(prior, after);
      DeltaRisen(prior, after);
    }
  }

  lemma {:induction false} DeltaValues(prior: map<Identity, Usage>, after: seq<Sample>)
    requires NonNegative(prior) && DistinctIds(after) && DeltaFrom(prior, after).Ok? && Risen(prior, after)
    ensures var out := DeltaFrom(prior, after).value;
            |out| == |after| && forall i :: 0 <= i < |after| ==> ZERO.Within(At(prior, after[i].Id())) && out[i] == Reduced(after[i], At(prior, after[i].Id()))
    decreases |after|
  {
    if after != [] {
      var rest := after[1..];
      var prior' := prior - {after[0].Id()};
      DeltaRisen(prior, after);
      SamePrior(prior, after);
      hide DistinctIds, Reduced;
      DeltaValues(prior', rest);
      var out := DeltaFrom(prior, after).value;
      forall i | 0 <= i < |after| ensures ZERO.Within(At(prior, after[i].Id())) && out[i] == Reduced(after[i], At(prior, after[i].Id())) {
        if i > 0 { assert after[i] == rest[i - 1]; }
      }
    }
  }

  /** Taking the first row off leaves the prior values of the others. */
  lemma SamePrior(prior: map<Identity, Usage>, after: seq<Sample>)
    requires after != [] && DistinctIds(after)
    ensures DistinctIds(after[1..]) && forall i :: 1 <= i < |after| ==> after[i] == after[1..][i - 1] && At(prior - {after[0].Id()}, after[i].Id()) == At(prior, after[i].Id())
  {
  }

  lemma DeltaRisen(prior: map<Identity, Usage>, after: seq<Sample>)
    requires after != [] && DistinctIds(after)
    ensures Risen(prior, after) <==> At(prior, after[0].Id()).Within(after[0].Used()) && Risen(prior - {after[0].Id()}, after[1..])
  {
    SamePrior(prior, after);
    var rest := after[1..];
    hide At, DistinctIds;
    if Risen(prior, after) {
      forall i | 0 <= i < |rest| ensures At(prior - {after[0].Id()}, rest[i].Id()).Within(rest[i].Used()) { assert after[i + 1] == rest[i]; }
    }
  }

  lemma DeltaKeys(prior: map<Identity, Usage>, after: seq<Sample>)
    requires after != [] && DistinctIds(after)
    ensures Present(prior, after) <==> Present(prior - {after[0].Id()}, after[1..])
  {
    var rest := after[1..];
    if Present(prior, after) {
      forall id | id in prior - {after[0].Id()} ensures exists i :: 0 <= i < |rest| && rest[i].Id() == id {
        var i :| 0 <= i < |after| && after[i].Id() == id;
        assert rest[i - 1].Id() == id;
      }
    }
    if Present(prior - {after[0].Id()}, rest) {
      forall id | id in prior ensures exists i :: 0 <= i < |after| && after[i].Id() == id {
        if id != after[0].Id() {
          assert id in prior - {after[0].Id()};
          var i :| 0 <= i < |rest| && rest[i].Id() == id;
          assert after[i + 1].Id() == id;
        }
      }
    }
  }

  /** `delta` between canonical inventories succeeds exactly when no counter
      vanished or fell; its rows keep the identities of `after`, are canonical
      again and carry the difference of every identity. */
  lemma DeltaSpec(before: seq<Sample>, after: seq<Sample>)
    requires Canonical(before) && Canonical(after)
    ensures Delta(before, after).Ok? <==> Covers(Index(before), Index(after))
    ensures Delta(before, after).Ok? ==>
              var out := Delta(before, after).value;
              && Canonical(out) && Index(out).Keys == Index(after).Keys
              && forall id :: At(Index(out), id) == At(Index(after), id).Minus(At(Index(before), id))
  {
    CanonicalIndex(before);
    CanonicalIndex(after);
    assert ValidRows(before);
    hide Canonical, Index, DistinctIds, Covers;
    DeltaRows(Index(before), after);
    DeltaCovers(Index(before), after);
    if Delta(before, after).Ok? { DeltaDifference(Index(before), after, Delta(before, after).value); }
  }

  lemma ReducedRow(s: Sample, prior: Usage)
    requires ValidRow(s) && prior.Within(s.Used()) && ZERO.Within(prior)
    ensures var t := Reduced(s, prior); ValidRow(t) && t.Id() == s.Id() && t.Used() == s.Used().Minus(prior)
  {
    hide ValidHex;
  }

  lemma DeltaDifference(prior: map<Identity, Usage>, after: seq<Sample>, out: seq<Sample>)
    requires Canonical(after) && DistinctIds(after) && Covers(prior, Index(after)) && |out| == |after|
    requires forall i :: 0 <= i < |after| ==>
               At(prior, after[i].Id()).Within(after[i].Used()) && ZERO.Within(At(prior, after[i].Id())) && out[i] == Reduced(after[i], At(prior, after[i].Id()))
    ensures Canonical(out) && Index(out).Keys == Index(after).Keys
    ensures forall id :: At(Index(out), id) == At(Index(after), id).Minus(At(prior, id))
  {
    assert ValidRows(after);
    hide Canonical, Index, DistinctIds, Reduced, ValidRow;
    forall i | 0 <= i < |after| ensures out[i].Id() == after[i].Id() && ValidRow(out[i]) && out[i].Used() == after[i].Used().Minus(At(prior, after[i].Id())) {
      ReducedRow(after[i], At(prior, after[i].Id()));
    }
    DeltaCanonical(after, out);
    forall id ensures At(Index(out), id) == At(Index(after), id).Minus(At(prior, id)) {
      if id in Index(after) {
        var i := IndexOf(after, id);
        IndexRow(after, i);
        IndexRow(out, i);
      }
    }
  }

  /** No prior row is missing and no row of `after` is below its prior value, exactly
      when the index of `after` covers the prior one. */
  lemma DeltaCovers(prior: map<Identity, Usage>, after: seq<Sample>)
    requires DistinctIds(after) && NonNegative(Index(after))
    ensures Covers(prior, Index(after)) <==> Present(prior, after) && Risen(prior, after)
  {
    IndexKeys(after);
    hide Index, DistinctIds;
    forall i | 0 <= i < |after| ensures Index(after)[after[i].Id()] == after[i].Used() { IndexRow(after, i); }
    if Risen(prior, after) {
      forall id | id in prior && id in Index(after) ensures prior[id].Within(Index(after)[id]) {
        var i :| 0 <= i < |after| && after[i].Id() == id;
        assert At(prior, after[i].Id()).Within(after[i].Used());
      }
    }
  }

  /** Rows with the identities of canonical rows, in order, are canonical. */
  lemma DeltaCanonical(after: seq<Sample>, out: seq<Sample>)
    requires Canonical(after) && |out| == |after|
    requires forall i :: 0 <= i < |after| ==> out[i].Id() == after[i].Id() && ValidRow(out[i])
    ensures Canonical(out) && DistinctIds(out) && Index(out).Keys == Index(after).Keys
  {
    forall i, j | 0 <= i < j < |out| ensures Before(out[i], out[j]) {
      assert Before(after[i], after[j]);
      assert Key(out[i]) == Key(after[i]) && Key(out[j]) == Key(after[j]);
    }
    OrderedDistinct(out);
    IndexKeys(out);
    IndexKeys(after);
    forall id ensures id in Index(out) <==> id in Index(after) {
      if i :| 0 <= i < |out| && out[i].Id() == id { assert after[i].Id() == id; }
      if i :| 0 <= i < |after| && after[i].Id() == id { assert out[i].Id() == id; }
    }
  }

  method ComputeDelta(before: seq<Sample>, after: seq<Sample>) returns (r: Result<seq<Sample>>)
    requires ValidRows(before)
    ensures r == Delta(before, after)
  {
    var prior := map[];
    for i := 0 to |before|
      invariant prior == Index(before[..i])
    {
      assert before[..i + 1][..i] == before[..i];
      prior := prior[before[i].Id() := before[i].Used()];
    }
    assert before[..|before|] == before;
    IndexNonNegative(before);
    var out: seq<Sample> := [];
    assert after[0..] == after;
    if DeltaFrom(prior, after).Ok? { assert [] + DeltaFrom(prior, after).value == DeltaFrom(prior, after).value; }
    for i := 0 to |after|
      invariant NonNegative(prior)
      invariant Delta(before, after) == Prepend(out, DeltaFrom(prior, after[i..]))
    {
      var s := after[i];
      assert after[i..][0] == s && after[i..][1..] == after[i + 1..];
      var p := At(prior, s.Id());
      if s.upload < p.up || s.download < p.down {
        return Fail(ErrEpoch);
      }
      PrependOne(out, Reduced(s, p), DeltaFrom(prior - {s.Id()}, after[i + 1..]));
      prior := prior - {s.Id()};
      out := out + [Reduced(s, p)];
    }
    assert after[|after|..] == [];
    if |prior| != 0 {
      return Fail(ErrOther);
    }
    assert prior == map[] && out + [] == out;
    return Ok(out);
  }

  function Prepend(out: seq<Sample>, r: Result<seq<Sample>>): Result<seq<Sample>> {
    if r.Fail? then r else Ok(out + r.value)
  }

  lemma PrependOne(out: seq<Sample>, s: Sample, r: Result<seq<Sample>>)
    ensures Prepend(out, Prepend([s], r)) == Prepend(out + [s], r)
  {
    if r.Ok? { assert out + ([s] + r.value) == out + [s] + r.value; }
  }

  // ---- sums per owner --------------------------------------------------------

  function Owned(s: Sample, uid: int): Usage { if s.uid == uid then s.Used() else ZERO }

  /** What the credentials of one owner have used together. */
  function OwnerSum(rows: seq<Sample>, uid: int): Usage {
    if rows == [] then ZERO else OwnerSum(rows[..|rows| - 1], uid).Plus(Owned(rows[|rows| - 1], uid))
  }

  /** The part of `m` that the rows of an owner mention. */
  ghost function Mentioned(rows: seq<Sample>, m: map<Identity, Usage>, uid: int): Usage {
    if rows == [] then ZERO
    else
      var s := rows[|rows| - 1];
      Mentioned(rows[..|rows| - 1], m, uid).Plus(Share(m, s.Id(), uid))
  }

  ghost function Share(m: map<Identity, Usage>, id: Identity, uid: int): Usage { if id.uid == uid then At(m, id) else ZERO }

  lemma PlusLaws(a: Usage, b: Usage, c: Usage)
    ensures a.Plus(b).Plus(c) == a.Plus(c).Plus(b) == a.Plus(b.Plus(c)) && a.Plus(ZERO) == a
  {
  }

  lemma Regroup(a: Usage, b: Usage, c: Usage, d: Usage)
    ensures a.Plus(b).Plus(c.Plus(d)) == a.Plus(c).Plus(b.Plus(d))
  {
  }

  /** The last of distinct rows is not among the others. */
  lemma LastIsNew(rows: seq<Sample>)
    requires DistinctIds(rows) && rows != []
    ensures DistinctIds(rows[..|rows| - 1]) && rows[|rows| - 1].Id() !in Index(rows[..|rows| - 1])
  {
    IndexKeys(rows[..|rows| - 1]);
  }

  ghost function Bonus(present: bool, id: Identity, u: Usage, uid: int): Usage { if present && id.uid == uid then u else ZERO }

  lemma {:induction false} MentionedNew(rows: seq<Sample>, m: map<Identity, Usage>, id: Identity, u: Usage, uid: int)
    requires DistinctIds(rows) && At(m, id) == ZERO
    ensures Mentioned(rows, m[id := u], uid) == Mentioned(rows, m, uid).Plus(Bonus(id in Index(rows), id, u, uid))
  {
    if rows == [] {
      PlusLaws(ZERO, ZERO, ZERO);
    } else {
      var init, s := rows[..|rows| - 1], rows[|rows| - 1];
      LastIsNew(rows);
      MentionedNew(init, m, id, u, uid);
      MentionedStep(s.Id(), m, id, u, uid, Mentioned(init, m, uid), id in Index(init));
      assert id in Index(rows) <==> id in Index(init) || s.Id() == id;
      hide DistinctIds, Index, Share, Bonus, At;
    }
  }

  lemma MentionedStep(last: Identity, m: map<Identity, Usage>, id: Identity, u: Usage, uid: int, a: Usage, earlier: bool)
    requires At(m, id) == ZERO && (last == id ==> !earlier)
    ensures a.Plus(Bonus(earlier, id, u, uid)).Plus(Share(m[id := u], last, uid)) ==
            a.Plus(Share(m, last, uid)).Plus(Bonus(earlier || last == id, id, u, uid))
  {
  }

  lemma {:induction false} MentionedAll(before: seq<Sample>, rows: seq<Sample>, uid: int)
    requires DistinctIds(before) && DistinctIds(rows)
    requires forall i :: 0 <= i < |before| ==> before[i].Id() in Index(rows)
    ensures Mentioned(rows, Index(before), uid) == OwnerSum(before, uid)
  {
    if before == [] {
      MentionedNothing(rows, uid);
    } else {
      var init, s := before[..|before| - 1], before[|before| - 1];
      MentionedAll(init, rows, uid);
      LastIsNew(before);
      MentionedNew(rows, Index(init), s.Id(), s.Used(), uid);
    }
  }

  lemma {:induction false} MentionedNothing(rows: seq<Sample>, uid: int)
    ensures Mentioned(rows, map[], uid) == ZERO
  {
    if rows != [] {
      MentionedNothing(rows[..|rows| - 1], uid);
      PlusLaws(ZERO, ZERO, ZERO);
    }
  }

  lemma {:induction false} OwnerSumReduced(after: seq<Sample>, out: seq<Sample>, m: map<Identity, Usage>, uid: int)
    requires |out| == |after| && NonNegative(m)
    requires forall i :: 0 <= i < |after| ==>
               At(m, after[i].Id()).Within(after[i].Used()) && out[i] == Reduced(after[i], At(m, after[i].Id()))
    ensures OwnerSum(after, uid) == Mentioned(after, m, uid).Plus(OwnerSum(out, uid))
  {
    if after == [] {
      PlusLaws(ZERO, ZERO, ZERO);
    } else {
      var n := |after| - 1;
      OwnerSumReduced(after[..n], out[..n], m, uid);
      assert ZERO.Within(At(m, after[n].Id()));
      ReducedSplits(after[n], m, uid);
      Regroup(Mentioned(after[..n], m, uid), OwnerSum(out[..n], uid), Share(m, after[n].Id(), uid), Owned(out[n], uid));
      hide NonNegative, Reduced, Share, Owned, At;
    }
  }

  lemma ReducedSplits(s: Sample, m: map<Identity, Usage>, uid: int)
    requires ZERO.Within(At(m, s.Id())) && At(m, s.Id()).Within(s.Used())
    ensures Owned(s, uid) == Share(m, s.Id(), uid).Plus(Owned(Reduced(s, At(m, s.Id())), uid))
  {
  }

  /** A delta distributes over owners. */
  lemma OwnerDelta(before: seq<Sample>, after: seq<Sample>, uid: int)
    requires Canonical(before) && Canonical(after) && Delta(before, after).Ok?
    ensures OwnerSum(after, uid) == OwnerSum(before, uid).Plus(OwnerSum(Delta(before, after).value, uid))
  {
    CanonicalIndex(before);
    CanonicalIndex(after);
    DeltaSpec(before, after);
    DeltaRows(Index(before), after);
    forall i | 0 <= i < |before| ensures before[i].Id() in Index(after) { IndexRow(before, i); }
    MentionedAll(before, after, uid);
    OwnerSumReduced(after, Delta(before, after).value, Index(before), uid);
  }

  // ---- batches and their wire text -----------------------------------------

  /** SHA-256 in hex, as an injective function of the hashed text. */
  datatype Digest = Sha256(text: string)

  datatype Batch = Batch(version: int, scope: string, epoch: string, sequence: nat, entries: seq<Sample>, digest: Digest)

  datatype Ack = Ack(scope: string, epoch: string, sequence: nat, digest: Digest)

  function AckFor(b: Batch): Ack { Ack(b.scope, b.epoch, b.sequence, b.digest) }

  predicate IsScopeChar(c: char) { 'a' <= c <= 'z' || 'A' <= c <= 'Z' || '0' <= c <= '9' || c == '_' || c == '-' }

  /** `^[a-zA-Z0-9_-]{1,64}$` */
  predicate ValidScope(s: string) { 1 <= |s| <= 64 && forall i :: 0 <= i < |s| ==> IsScopeChar(s[i]) }

  function SignedDecimal(x: int): string { if x >= 0 then Decimal(x) else "-" + Decimal(-x) }

  function RowText(r: Sample): string {
    SignedDecimal(r.uid) + ":" + (r.credential + ":" + (SignedDecimal(r.upload) + ":" + SignedDecimal(r.download)))
  }

  function EntriesText(rows: seq<Sample>): string {
    if rows == [] then "" else RowText(rows[0]) + "\n" + EntriesText(rows[1..])
  }

  /** What `Batch.Hash` feeds to SHA-256. */
  function WireText(b: Batch): string {
    "beup-traffic-v1\n" + (b.scope + "\n" + (b.epoch + "\n" + (Decimal(b.sequence) + "\n" + EntriesText(b.entries))))
  }

  function Hash(b: Batch): Digest { Sha256(WireText(b)) }

  predicate ValidWire(b: Batch) {
    ValidScope(b.scope) && ValidHex(b.epoch, 16) && forall i :: 0 <= i < |b.entries| ==> ValidRow(b.entries[i])
  }

  /** Addressed, numbered, and carrying the digest of its own text. */
  predicate ValidBatch(b: Batch) {
    ValidScope(b.scope) && ValidHex(b.epoch, 16) && 1 <= b.sequence <= MAX_SEQUENCE && b.version == 1 && b.digest == Hash(b)
  }

  lemma FieldChars(s: string, sep: char)
    requires sep == ':' || sep == '\n'
    requires AllDigits(s) || (exists n :: ValidHex(s, n)) || (sep == '\n' && ValidScope(s))
    ensures sep !in s
  {
  }

  lemma RowTextInjective(a: Sample, b: Sample)
    requires ValidRow(a) && ValidRow(b) && RowText(a) == RowText(b)
    ensures a == b
  {
    FieldChars(a.credential, ':');
    FieldChars(b.credential, ':');
    var x, y := a.credential + ":" + (SignedDecimal(a.upload) + ":" + SignedDecimal(a.download)), b.credential + ":" + (SignedDecimal(b.upload) + ":" + SignedDecimal(b.download));
    CutAt(':', SignedDecimal(a.uid), x, SignedDecimal(b.uid), y);
    CutAt(':', a.credential, SignedDecimal(a.upload) + ":" + SignedDecimal(a.download), b.credential, SignedDecimal(b.upload) + ":" + SignedDecimal(b.download));
    CutAt(':', SignedDecimal(a.upload), SignedDecimal(a.download), SignedDecimal(b.upload), SignedDecimal(b.download));
    DecimalInjective(a.uid, b.uid);
    DecimalInjective(a.upload, b.upload);
    DecimalInjective(a.download, b.download);
  }

  lemma RowTextOneLine(a: Sample)
    requires ValidRow(a)
    ensures '\n' !in RowText(a)
  {
    FieldChars(a.credential, '\n');
  }

  lemma {:induction false} EntriesTextInjective(a: seq<Sample>, b: seq<Sample>)
    requires ValidRows(a) && ValidRows(b) && EntriesText(a) == EntriesText(b)
    ensures a == b
  {
    if a != [] && b != [] {
      hide RowText, ValidRow;
      RowTextOneLine(a[0]);
      RowTextOneLine(b[0]);
      CutAt('\n', RowText(a[0]), EntriesText(a[1..]), RowText(b[0]), EntriesText(b[1..]));
      RowTextInjective(a[0], b[0]);
      EntriesTextInjective(a[1..], b[1..]);
      assert a == [a[0]] + a[1..] && b == [b[0]] + b[1..];
    }
  }

  /** The hashed text of validated batches is uniquely decodable: equal digests
      mean equal scope, epoch, sequence and entries. */
  lemma WireTextInjective(a: Batch, b: Batch)
    requires ValidWire(a) && ValidWire(b) && Hash(a) == Hash(b)
    ensures a.scope == b.scope && a.epoch == b.epoch && a.sequence == b.sequence && a.entries == b.entries
  {
    FieldChars(a.scope, '\n');
    FieldChars(b.scope, '\n');
    FieldChars(a.epoch, '\n');
    FieldChars(b.epoch, '\n');
    var a1, b1 := Decimal(a.sequence) + "\n" + EntriesText(a.entries), Decimal(b.sequence) + "\n" + EntriesText(b.entries);
    var a2, b2 := a.epoch + "\n" + a1, b.epoch + "\n" + b1;
    var a3, b3 := a.scope + "\n" + a2, b.scope + "\n" + b2;
    assert a3 == WireText(a)[16..] == WireText(b)[16..] == b3;
    CutAt('\n', a.scope, a2, b.scope, b2);
    CutAt('\n', a.epoch, a1, b.epoch, b1);
    CutAt('\n', Decimal(a.sequence), EntriesText(a.entries), Decimal(b.sequence), EntriesText(b.entries));
    DecimalInjective(a.sequence, b.sequence);
    EntriesTextInjective(a.entries, b.entries);
  }

  /** An acknowledgement names one batch only: its digest fixes the entries. */
  lemma AckNamesBatch(a: Batch, b: Batch)
    requires ValidBatch(a) && ValidBatch(b) && ValidRows(a.entries) && ValidRows(b.entries)
    ensures a.digest == b.digest ==> a == b
    ensures AckFor(a) == AckFor(b) <==> a == b
  {
    hide Hash;
    if a.digest == b.digest { WireTextInjective(a, b); }
  }
}
