/** The owner totals that the legacy push API reports for a batch
    (common/beuptransfer/legacy.go). */
module Legacy {
  import opened Text
  import opened Counters
  import opened Journals
  import opened Delivery
  import opened Settlement

  function OwnerAt(m: map<int, Usage>, uid: int): Usage { if uid in m then m[uid] else ZERO }

  /** The totals by owner: the owners with a change, and no others. */
  ghost predicate Totals(data: map<int, Usage>, entries: seq<Sample>) {
    && (forall uid :: OwnerAt(data, uid) == OwnerSum(entries, uid))
    && (forall uid :: uid in data <==> OwnerSum(entries, uid) != ZERO)
  }

  /** The legacy API can be told about the batch. */
  ghost predicate Payable(b: Batch) { ValidBatch(b) && Samples(b.entries).Ok? && AllBounded(b.entries) }

  /** No owner's total leaves 53 bits. */
  ghost predicate AllBounded(entries: seq<Sample>) { forall uid :: Bounded(OwnerSum(entries, uid)) }

  predicate Bounded(u: Usage) { u.up <= MAX_SEQUENCE && u.down <= MAX_SEQUENCE }

  lemma {:induction false} OwnerSumWithout(rows: seq<Sample>, i: int, uid: int)
    requires 0 <= i < |rows|
    ensures OwnerSum(rows, uid) == OwnerSum(rows[..i] + rows[i + 1..], uid).Plus(Owned(rows[i], uid))
    decreases |rows|
  {
    var n := |rows| - 1;
    if i == n {
      assert rows[..i] + rows[i + 1..] == rows[..n];
    } else {
      hide Owned;
      var rest := rows[..i] + rows[i + 1..];
      OwnerSumWithout(rows[..n], i, uid);
      assert rest[..|rest| - 1] == rows[..n][..i] + rows[..n][i + 1..];
      assert rest[|rest| - 1] == rows[n];
      var sum, x, y := OwnerSum(rest[..|rest| - 1], uid), Owned(rows[i], uid), Owned(rows[n], uid);
      assert OwnerSum(rest, uid) == sum.Plus(y) && OwnerSum(rows, uid) == OwnerSum(rows[..n], uid).Plus(y) && OwnerSum(rows[..n], uid) == sum.Plus(x);
      PlusLaws(sum, x, y);
    }
  }

  /** The owner's sum does not depend on the order of the rows. */
  lemma {:induction false} OwnerSumPermuted(a: seq<Sample>, b: seq<Sample>, uid: int)
    requires multiset(a) == multiset(b)
    ensures OwnerSum(a, uid) == OwnerSum(b, uid)
    decreases |a|
  {
    SameLength(a, b);
    if |a| > 0 {
      var n := |a| - 1;
      WithoutLast(a);
      assert a[n] in multiset(b);
      var i :| 0 <= i < |b| && b[i] == a[n];
      CountAt(b, i);
      var rest := b[..i] + b[i + 1..];
      assert multiset(rest) == multiset(b) - multiset{b[i]};
      OwnerSumPermuted(a[..n], rest, uid);
      OwnerSumWithout(b, i, uid);
      hide Owned;
    }
  }

  lemma {:induction false} OwnerSumGrows(rows: seq<Sample>, k: int, uid: int)
    requires ValidRows(rows) && 0 <= k <= |rows|
    ensures ZERO.Within(OwnerSum(rows[..k], uid)) && OwnerSum(rows[..k], uid).Within(OwnerSum(rows, uid))
    decreases |rows|
  {
    if rows != [] {
      var n := |rows| - 1;
      if k <= n {
        OwnerSumGrows(rows[..n], k, uid);
        assert rows[..n][..k] == rows[..k];
      } else {
        OwnerSumGrows(rows[..n], n, uid);
        assert rows[..k] == rows && rows[..n][..n] == rows[..n];
      }
    }
  }

  /** What the legacy push API is sent for a batch: the request id, the digest of the
      report, and the totals by owner. */
  datatype Payload = Payload(id: string, digest: Digest, data: map<int, Usage>)

  /** The text whose shortened hash is the request id. */
  function RequestText(b: Batch): string {
    "beup-legacy-request-v1\n" + (b.scope + "\n" + (b.epoch + "\n" + (Decimal(b.sequence) + "\n")))
  }

  function OwnerText(uid: int, u: Usage): string { SignedDecimal(uid) + ":" + (SignedDecimal(u.up) + ":" + SignedDecimal(u.down)) }

  function OwnersText(ids: seq<int>, data: map<int, Usage>): string {
    if ids == [] then "" else OwnerText(ids[0], OwnerAt(data, ids[0])) + "\n" + OwnersText(ids[1..], data)
  }

  /** The text of the report, owners in the order of `ids`. */
  function ReportText(scope: string, id: string, ids: seq<int>, data: map<int, Usage>): string {
    "beup-legacy-report-v1\n" + (scope + "\n" + (id + "\n" + OwnersText(ids, data)))
  }

  ghost predicate Ascending(ids: seq<int>) { forall i, j :: 0 <= i < j < |ids| ==> ids[i] < ids[j] }

  /** The owners of the totals, ascending. */
  ghost predicate Listed(ids: seq<int>, data: map<int, Usage>) { Ascending(ids) && forall u :: u in ids <==> u in data }

  /** `LegacyPayload`: a valid batch is aggregated by owner, exactly; identities
      without a change do not make their owner appear; it fails exactly on an invalid
      batch or a total that leaves 53 bits; and id and digest are those of the texts
      above. `shorten` is the first half of a SHA-256 in hexadecimal. */
  method LegacyPayload(b: Batch, shorten: string -> string) returns (r: Result<Payload>, ghost ids: seq<int>)
    ensures r.Ok? <==> Payable(b)
    ensures r.Ok? ==> Totals(r.value.data, b.entries)
    ensures r.Ok? ==> Listed(ids, r.value.data) && Printable(ids, r.value.data) && r.value.id == shorten(RequestText(b)) && r.value.digest == Sha256(ReportText(b.scope, r.value.id, ids, r.value.data))
  {
    hide Samples, ValidScope, ValidHex, Hash, OwnerSum, ValidRows;
    ids := [];
    var data := Aggregate(b);
    if data.Fail? {
      return Fail(data.error), [];
    }
    var id := shorten(RequestText(b));
    var order := SortedOwners(data.value);
    var wire := "";
    assert order[..0] == [] && OwnersText([], data.value) == "";
    for i := 0 to |order|
      invariant wire == OwnersText(order[..i], data.value)
    {
      OwnersTextOn(order, data.value, i);
      wire := wire + (OwnerText(order[i], OwnerAt(data.value, order[i])) + "\n");
    }
    assert order[..|order|] == order;
    assert Printable(order, data.value) by {
      forall i | 0 <= i < |order| ensures order[i] in data.value { assert order[i] in order; }
    }
    return Ok(Payload(id, Sha256("beup-legacy-report-v1\n" + (b.scope + "\n" + (id + "\n" + wire))), data.value)), order;
  }

  lemma {:induction false} OwnersTextOn(ids: seq<int>, data: map<int, Usage>, i: nat)
    requires i < |ids|
    ensures OwnersText(ids[..i + 1], data) == OwnersText(ids[..i], data) + (OwnerText(ids[i], OwnerAt(data, ids[i])) + "\n")
    decreases i
  {
    hide OwnerText;
    if i == 0 {
      assert ids[..1] == [ids[0]] && ids[..0] == [] && [ids[0]][1..] == [];
    } else {
      OwnersTextOn(ids[1..], data, i - 1);
      assert ids[..i + 1][1..] == ids[1..][..i] && ids[..i][1..] == ids[1..][..i - 1];
    }
  }

  method AnyOf(ids: set<int>) returns (u: int)
    requires ids != {}
    ensures u in ids
  {
    assert (forall u :: u !in ids) ==> |ids| == 0;
    u :| u in ids;
  }

  method SortedOwners(data: map<int, Usage>) returns (ids: seq<int>)
    ensures Listed(ids, data)
  {
    ids := [];
    var left := data.Keys;
    while left != {}
      invariant left <= data.Keys && Ascending(ids)
      invariant forall u :: u in ids <==> u in data && u !in left
    {
      var u := AnyOf(left);
      var n := 0;
      while n < |ids| && ids[n] < u
        invariant n <= |ids| && forall i :: 0 <= i < n ==> ids[i] < u
      {
        n := n + 1;
      }
      assert n < |ids| ==> ids[n] in ids;
      assert forall i :: n <= i < |ids| ==> u < ids[i];
      assert forall x :: x in ids <==> x in ids[..n] || x in ids[n..] by { assert ids == ids[..n] + ids[n..]; }
      ids := ids[..n] + [u] + ids[n..];
      left := left - {u};
    }
  }

  /** Two batches with the same request text are the same report of the same stream. */
  lemma RequestTextInjective(a: Batch, b: Batch)
    requires ValidScope(a.scope) && ValidScope(b.scope) && ValidHex(a.epoch, 16) && ValidHex(b.epoch, 16) && RequestText(a) == RequestText(b)
    ensures a.scope == b.scope && a.epoch == b.epoch && a.sequence == b.sequence
  {
    FieldChars(a.scope, '\n');
    FieldChars(b.scope, '\n');
    FieldChars(a.epoch, '\n');
    FieldChars(b.epoch, '\n');
    var n := |"beup-legacy-request-v1\n"|;
    assert RequestText(a)[n..] == a.scope + "\n" + (a.epoch + "\n" + (Decimal(a.sequence) + "\n"));
    assert RequestText(b)[n..] == b.scope + "\n" + (b.epoch + "\n" + (Decimal(b.sequence) + "\n"));
    CutAt('\n', a.scope, a.epoch + "\n" + (Decimal(a.sequence) + "\n"), b.scope, b.epoch + "\n" + (Decimal(b.sequence) + "\n"));
    CutAt('\n', a.epoch, Decimal(a.sequence) + "\n", b.epoch, Decimal(b.sequence) + "\n");
    CutAt('\n', Decimal(a.sequence), "", Decimal(b.sequence), "");
    DecimalInjective(a.sequence, b.sequence);
  }

  predicate Printable(ids: seq<int>, data: map<int, Usage>) {
    forall i :: 0 <= i < |ids| ==> ids[i] >= 0 && OwnerAt(data, ids[i]).up >= 0 && OwnerAt(data, ids[i]).down >= 0
  }

  lemma OwnerTextInjective(uid: nat, u: Usage, vid: nat, v: Usage)
    requires u.up >= 0 && u.down >= 0 && v.up >= 0 && v.down >= 0 && OwnerText(uid, u) == OwnerText(vid, v)
    ensures uid == vid && u == v
  {
    CutAt(':', Decimal(uid), Decimal(u.up) + ":" + Decimal(u.down), Decimal(vid), Decimal(v.up) + ":" + Decimal(v.down));
    CutAt(':', Decimal(u.up), Decimal(u.down), Decimal(v.up), Decimal(v.down));
    DecimalInjective(uid, vid);
    DecimalInjective(u.up, v.up);
    DecimalInjective(u.down, v.down);
  }

  lemma OwnerTextOneLine(uid: nat, u: Usage)
    requires u.up >= 0 && u.down >= 0
    ensures '\n' !in OwnerText(uid, u) && ':' !in Decimal(uid)
  {
    FieldChars(Decimal(uid), '\n');
    FieldChars(Decimal(u.up), '\n');
    FieldChars(Decimal(u.down), '\n');
  }

  lemma {:induction false} OwnersTextInjective(a: seq<int>, m: map<int, Usage>, b: seq<int>, n: map<int, Usage>)
    requires Printable(a, m) && Printable(b, n) && OwnersText(a, m) == OwnersText(b, n)
    ensures a == b && forall i :: 0 <= i < |a| ==> OwnerAt(m, a[i]) == OwnerAt(n, a[i])
    decreases |a|
  {
    if a != [] && b != [] {
      var u, v := OwnerAt(m, a[0]), OwnerAt(n, b[0]);
      OwnerTextOneLine(a[0], u);
      OwnerTextOneLine(b[0], v);
      CutAt('\n', OwnerText(a[0], u), OwnersText(a[1..], m), OwnerText(b[0], v), OwnersText(b[1..], n));
      OwnerTextInjective(a[0], u, b[0], v);
      OwnersTextInjective(a[1..], m, b[1..], n);
      assert a == [a[0]] + a[1..] && b == [b[0]] + b[1..];
    }
  }

  /** The report digest fixes scope, request id and the totals of every owner. */
  lemma ReportTextInjective(scope: string, id: string, a: seq<int>, m: map<int, Usage>, scope': string, id': string, b: seq<int>, n: map<int, Usage>)
    requires ValidScope(scope) && ValidScope(scope') && '\n' !in id && '\n' !in id' && Listed(a, m) && Listed(b, n) && Printable(a, m) && Printable(b, n)
    requires Sha256(ReportText(scope, id, a, m)) == Sha256(ReportText(scope', id', b, n))
    ensures scope == scope' && id == id' && m == n
  {
    FieldChars(scope, '\n');
    FieldChars(scope', '\n');
    var k := |"beup-legacy-report-v1\n"|;
    assert ReportText(scope, id, a, m)[k..] == scope + "\n" + (id + "\n" + OwnersText(a, m));
    assert ReportText(scope', id', b, n)[k..] == scope' + "\n" + (id' + "\n" + OwnersText(b, n));
    CutAt('\n', scope, id + "\n" + OwnersText(a, m), scope', id' + "\n" + OwnersText(b, n));
    CutAt('\n', id, OwnersText(a, m), id', OwnersText(b, n));
    OwnersTextInjective(a, m, b, n);
    hide OwnersText, Ascending;
    forall u ensures (u in m <==> u in n) && (u in m ==> m[u] == n[u]) {
      if u in m {
        var i :| 0 <= i < |a| && a[i] == u;
        assert OwnerAt(m, a[i]) == OwnerAt(n, a[i]);
      }
    }
  }

  /** The totals of a valid batch by owner. */
  method Aggregate(b: Batch) returns (r: Result<map<int, Usage>>)
    ensures r.Ok? <==> Payable(b)
    ensures r.Ok? ==> Totals(r.value, b.entries)
    ensures r.Ok? ==> forall uid :: uid in r.value ==> uid > 0 && ZERO.Within(r.value[uid])
  {
    hide Samples, ValidScope, ValidHex, Hash, OwnerSum, ValidRows;
    if !ValidScope(b.scope) || !ValidHex(b.epoch, 16) || b.sequence < 1 || b.sequence > MAX_SEQUENCE || b.version != 1 || b.digest != Hash(b) {
      return Fail(ErrOther);
    }
    var sorted := CheckSamples(b.entries);
    if sorted.Fail? {
      return Fail(sorted.error);
    }
    PayloadRows(b.entries);
    r := SumByOwner(sorted.value);
    if r.Ok? {
      forall uid ensures Bounded(OwnerSum(b.entries, uid)) { assert Bounded(OwnerSum(sorted.value, uid)); }
    } else {
      ghost var uid :| !Bounded(OwnerSum(sorted.value, uid));
      assert !Bounded(OwnerSum(b.entries, uid));
    }
  }

  lemma PayloadRows(entries: seq<Sample>)
    requires Samples(entries).Ok?
    ensures ValidRows(Samples(entries).value) && forall uid :: OwnerSum(Samples(entries).value, uid) == OwnerSum(entries, uid)
  {
    SamplesCanonical(entries);
    forall uid ensures OwnerSum(Samples(entries).value, uid) == OwnerSum(entries, uid) {
      OwnerSumPermuted(Samples(entries).value, entries, uid);
    }
  }

  /** A running total: `data` is the sum of what has been read. */
  ghost predicate Running(data: map<int, Usage>, done: seq<Sample>) {
    && (forall uid :: OwnerAt(data, uid) == OwnerSum(done, uid) && Bounded(OwnerAt(data, uid)))
    && (forall uid :: uid in data ==> data[uid] != ZERO && ZERO.Within(data[uid]) && uid > 0)
  }

  lemma RunningZero(data: map<int, Usage>, done: seq<Sample>, s: Sample)
    requires Running(data, done) && s.upload == 0 && s.download == 0
    ensures Running(data, done + [s])
  {
    hide OwnerSum, Bounded, OwnerAt;
    SumStep(done, s);
    assert s.Used() == ZERO;
    forall uid ensures OwnerAt(data, uid) == OwnerSum(done + [s], uid) && Bounded(OwnerAt(data, uid)) {
      assert OwnerAt(data, uid) == OwnerSum(done, uid);
    }
  }

  lemma RunningMore(data: map<int, Usage>, done: seq<Sample>, s: Sample, more: Usage)
    requires Running(data, done) && s.uid > 0 && s.upload >= 0 && s.download >= 0 && (s.upload != 0 || s.download != 0)
    requires more == OwnerAt(data, s.uid).Plus(s.Used())
    ensures OwnerSum(done + [s], s.uid) == more
    ensures Bounded(more) ==> Running(data[s.uid := more], done + [s])
  {
    SumStep(done, s);
    hide OwnerSum;
    assert OwnerAt(data, s.uid) == OwnerSum(done, s.uid) && ZERO.Within(OwnerAt(data, s.uid));
    if Bounded(more) {
      var d := data[s.uid := more];
      forall uid ensures OwnerAt(d, uid) == OwnerSum(done + [s], uid) && Bounded(OwnerAt(d, uid)) {
        if uid != s.uid { assert OwnerAt(d, uid) == OwnerAt(data, uid) == OwnerSum(done, uid); }
      }
      assert forall uid :: uid in d && uid != s.uid ==> d[uid] == data[uid];
    }
  }

  method SumByOwner(rows: seq<Sample>) returns (r: Result<map<int, Usage>>)
    requires ValidRows(rows)
    ensures r.Ok? <==> forall uid :: Bounded(OwnerSum(rows, uid))
    ensures r.Ok? ==> Totals(r.value, rows)
    ensures r.Ok? ==> forall uid :: uid in r.value ==> uid > 0 && ZERO.Within(r.value[uid])
  {
    hide OwnerSum, ValidHex;
    var data: map<int, Usage> := map[];
    EmptySum();
    for i := 0 to |rows|
      invariant Running(data, rows[..i])
    {
      var s := rows[i];
      assert rows[..i + 1] == rows[..i] + [s];
      if s.upload == 0 && s.download == 0 {
        RunningZero(data, rows[..i], s);
        continue;
      }
      var sum := OwnerAt(data, s.uid);
      RunningMore(data, rows[..i], s, Usage(sum.up + s.upload, sum.down + s.download));
      if s.upload > MAX_SEQUENCE - sum.up || s.download > MAX_SEQUENCE - sum.down {
        OwnerSumGrows(rows, i + 1, s.uid);
        assert !Bounded(OwnerSum(rows[..i + 1], s.uid));
        assert !Bounded(OwnerSum(rows, s.uid));
        return Fail(ErrOther);
      }
      data := data[s.uid := Usage(sum.up + s.upload, sum.down + s.download)];
    }
    assert rows[..|rows|] == rows;
    return Ok(data);
  }

  lemma EmptySum()
    ensures forall uid :: OwnerSum([], uid) == ZERO
  {
  }

  lemma SumStep(done: seq<Sample>, s: Sample)
    ensures OwnerSum(done + [s], s.uid) == OwnerSum(done, s.uid).Plus(s.Used())
    ensures forall uid :: s.Used() == ZERO || uid != s.uid ==> OwnerSum(done + [s], uid) == OwnerSum(done, uid)
  {
    var all := done + [s];
    assert all[..|all| - 1] == done && all[|all| - 1] == s;
    forall uid ensures s.Used() == ZERO || uid != s.uid ==> OwnerSum(all, uid) == OwnerSum(done, uid) {
      PlusLaws(OwnerSum(done, uid), ZERO, ZERO);
    }
  }

  // ---- the payloads of a run ------------------------------------------------------------

  /** What a sequence of payloads reports for an owner. */
  ghost function Paid(payloads: seq<map<int, Usage>>, uid: int): Usage {
    if payloads == [] then ZERO else Paid(payloads[..|payloads| - 1], uid).Plus(OwnerAt(payloads[|payloads| - 1], uid))
  }

  ghost predicate PayloadsOf(payloads: seq<map<int, Usage>>, log: seq<Batch>) {
    |payloads| == |log| && forall i :: 0 <= i < |log| ==> Totals(payloads[i], log[i].entries)
  }

  lemma {:induction false} PaidLedger(payloads: seq<map<int, Usage>>, log: seq<Batch>, uid: int)
    requires PayloadsOf(payloads, log)
    ensures Paid(payloads, uid) == Ledger(log, uid)
  {
    if log != [] {
      var n := |log| - 1;
      PaidLedger(payloads[..n], log[..n], uid);
      assert Totals(payloads[n], log[n].entries);
      hide OwnerSum;
    }
  }

  /** Billing by owner: over every run, the payloads of all booked batches together
      report for each owner exactly what its credentials have committed (or will have,
      once the pending batch has landed). */
  lemma PayloadLedger(s: Sys, scope: string, epoch: string, steps: seq<Step>, payloads: seq<map<int, Usage>>, uid: int)
    requires Reached(s, scope, epoch, steps) && s.disk.Some? && PayloadsOf(payloads, s.panel.log)
    ensures var j, log := s.disk.value, s.panel.log;
            Paid(payloads, uid) == OwnerSum(if Ahead(j, log) then j.pending.value.through else j.committed, uid)
  {
    hide Reached, OwnerSum;
    OwnerLedger(s, scope, epoch, steps, uid);
    PaidLedger(payloads, s.panel.log, uid);
  }

  /** Of the batches of a run only a total beyond 53 bits cannot be reported. */
  lemma IssuedPayable(s: Sys, scope: string, epoch: string, steps: seq<Step>, b: Batch)
    requires Reached(s, scope, epoch, steps) && Issued(s, b)
    ensures Payable(b) <==> AllBounded(b.entries)
  {
    hide Reached, Issued, AllBounded, ValidBatch;
    IssuedProper(s, scope, epoch, steps, b);
  }
}
