/** The durable journal of the accounting outbox, every check `Open` makes of
    it, and the pure part of each journal transition (common/beuptransfer:
    outbox.go, drain.go, reservation.go, counter_session.go). */
module Journals {
  import opened Text
  import opened Counters

  const MAX_DRAINS := 1000

  datatype DrainRequest = DrainRequest(id: string, identity: Identity)

  /** What an adapter's `Inspect` answers about an identity. */
  datatype FenceStatus = FenceStatus(epoch: string, identity: Identity, rejectNew: bool, outstanding: int, trackingReady: bool, bindings: int)

  datatype DrainProof = DrainProof(request: DrainRequest, scope: string, epoch: string, final: Sample, receipt: Ack)

  datatype DrainRecord = DrainRecord(request: DrainRequest, proof: Option<DrainProof>)

  datatype Recovery = Recovery(count: nat, since: int, previous: string)

  datatype Session = Session(process: string, base: seq<Sample>, isSealed: bool, recovery: Option<Recovery>)

  datatype Pending = Pending(batch: Batch, through: seq<Sample>)

  datatype Journal = Journal(
    version: int, scope: string, epoch: string, next: nat, committed: seq<Sample>, pending: Option<Pending>,
    lastAck: Option<Ack>, drains: map<string, DrainRecord>, reservations: map<string, DrainRequest>,
    session: Option<Session>)

  function Fresh(scope: string, epoch: string): Journal {
    Journal(1, scope, epoch, 1, [], None, None, map[], map[], None)
  }

  predicate ValidRequest(r: DrainRequest) {
    ValidHex(r.id, 16) && r.identity.uid > 0 && ValidHex(r.identity.credential, 32)
  }

  // ---- the checks of Open --------------------------------------------------

  /** `validateReservations`: at most 1000 promises, one per identity. */
  predicate ReservationsOk(j: Journal) {
    && |j.drains| + |j.reservations| <= MAX_DRAINS
    && (forall a, b :: a in j.drains && b in j.drains && a != b ==> j.drains[a].request.identity != j.drains[b].request.identity)
    && (forall a :: a in j.reservations ==> ValidRequest(j.reservations[a]) && j.reservations[a].id == a && a !in j.drains)
    && (forall a, b :: a in j.reservations && b in j.drains ==> j.reservations[a].identity != j.drains[b].request.identity)
    && (forall a, b :: a in j.reservations && b in j.reservations && a != b ==> j.reservations[a].identity != j.reservations[b].identity)
  }

  /** `validateCounterSession`. */
  function CheckSession(j: Journal): Result<()> {
    match j.session
    case None => Ok(())
    case Some(s) =>
      if !ValidHex(s.process, 16) then Fail(ErrEpoch)
      else if Samples(s.base).Fail? then Fail(Samples(s.base).error)
      else if Delta(s.base, j.committed).Fail? then Fail(ErrEpoch)
      else if s.recovery.Some? && (s.recovery.value.count == 0 || s.recovery.value.count > MAX_SEQUENCE || s.recovery.value.since <= 0 || !ValidHex(s.recovery.value.previous, 16)) then Fail(ErrEpoch)
      else if s.isSealed && (j.pending.Some? || j.lastAck.None?) then Fail(ErrEpoch)
      else Ok(())
  }

  /** `drainRecord.validate`. */
  predicate DrainOk(id: string, d: DrainRecord, j: Journal) {
    && d.request.id == id && ValidRequest(d.request)
    && (d.proof.Some? ==>
          var p := d.proof.value;
          && p.request == d.request && p.scope == j.scope && p.epoch == j.epoch
          && p.receipt.scope == j.scope && p.receipt.epoch == j.epoch && 0 < p.receipt.sequence < j.next
          && p.final.Id() == d.request.identity && p.final.upload >= 0 && p.final.download >= 0)
  }

  /** The batch `Open` recomputes for a pending delivery. */
  function BatchOf(j: Journal, entries: seq<Sample>): Batch {
    var b := Batch(1, j.scope, j.epoch, j.next, entries, Sha256(""));
    b.(digest := Hash(b))
  }

  function CheckPending(j: Journal, p: Pending): Result<()>
    requires Samples(j.committed).Ok?
  {
    var through := Samples(p.through);
    if through.Fail? then Fail(through.error)
    else
      var entries := Delta(j.committed, through.value);
      if entries.Fail? then Fail(entries.error)
      else if p.batch != BatchOf(j, entries.value) then Fail(ErrOther)
      else Ok(())
  }

  /** `Open` on a stored journal: the state it continues with, or its refusal. */
  function Reopen(j: Journal, scope: string, epoch: string): Result<Journal> {
    if !ValidScope(scope) || !ValidHex(epoch, 16) then Fail(ErrOther)
    else if j.version != 1 || j.scope != scope || j.next == 0 || j.next > MAX_SEQUENCE || |j.drains| > MAX_DRAINS then Fail(ErrOther)
    else if CheckSession(j).Fail? then Fail(CheckSession(j).error)
    else if !ReservationsOk(j) then Fail(ErrCoverage)
    else if j.epoch != epoch then Fail(ErrEpoch)
    else if Samples(j.committed).Fail? then Fail(Samples(j.committed).error)
    else if j.lastAck.Some? && (j.lastAck.value.scope != scope || j.lastAck.value.epoch != epoch || j.lastAck.value.sequence + 1 != j.next) then Fail(ErrOther)
    else if j.lastAck.None? && (j.next != 1 || j.committed != []) then Fail(ErrOther)
    else if j.pending.Some? && CheckPending(j, j.pending.value).Fail? then Fail(CheckPending(j, j.pending.value).error)
    else if exists id :: id in j.drains && !DrainOk(id, j.drains[id], j) then Fail(ErrOther)
    else Ok(j)
  }

  // ---- the invariant of every journal on disk -------------------------------

  ghost predicate Holds(rows: seq<Sample>, final: Sample) {
    final.Id() in Index(rows) && Index(rows)[final.Id()] == final.Used()
  }

  ghost predicate SessionInv(j: Journal) {
    j.session.Some? ==>
      var s := j.session.value;
      && ValidHex(s.process, 16) && Canonical(s.base) && Covers(Index(s.base), Index(j.committed))
      && (s.recovery.Some? ==> 0 < s.recovery.value.count <= MAX_SEQUENCE && s.recovery.value.since > 0 && ValidHex(s.recovery.value.previous, 16))
      && (s.isSealed ==> j.pending.None? && j.lastAck.Some?)
  }

  ghost predicate PendingInv(j: Journal) {
    j.pending.Some? ==>
      var p := j.pending.value;
      && j.next < MAX_SEQUENCE && ValidRows(j.committed) && Canonical(p.through)
      && Covers(Index(j.committed), Index(p.through))
      && Delta(j.committed, p.through).Ok? && p.batch == BatchOf(j, Delta(j.committed, p.through).value)
  }

  ghost predicate AckInv(j: Journal) {
    match j.lastAck
    case Some(a) => a.scope == j.scope && a.epoch == j.epoch && 0 < a.sequence == j.next - 1
    case None => j.next == 1 && j.committed == []
  }

  /** Proved drains keep their final row: committed, and again in what is pending. */
  ghost predicate DrainInv(j: Journal) {
    forall id :: id in j.drains ==>
      && DrainOk(id, j.drains[id], j)
      && (j.drains[id].proof.Some? ==>
            && Holds(j.committed, j.drains[id].proof.value.final)
            && (j.pending.Some? ==> Holds(j.pending.value.through, j.drains[id].proof.value.final)))
  }

  ghost predicate WellFormed(j: Journal) {
    && j.version == 1 && ValidScope(j.scope) && ValidHex(j.epoch, 16) && 1 <= j.next <= MAX_SEQUENCE
    && Canonical(j.committed) && AckInv(j) && PendingInv(j) && ReservationsOk(j) && DrainInv(j) && SessionInv(j)
  }

  /** A journal that satisfies the invariant. */
  type Sound = j: Journal | WellFormed(j) ghost witness Fresh("n", seq(32, i => '0'))

  lemma SessionChecks(j: Journal)
    requires SessionInv(j) && Canonical(j.committed)
    ensures CheckSession(j).Ok?
  {
    hide Canonical, Covers, Index, Samples, Delta, ValidHex;
    if j.session.Some? {
      SamplesOfCanonical(j.session.value.base);
      DeltaSpec(j.session.value.base, j.committed);
    }
  }

  lemma PendingChecks(j: Journal, p: Pending)
    requires Canonical(j.committed) && PendingInv(j) && j.pending == Some(p)
    ensures Samples(j.committed) == Ok(j.committed) && CheckPending(j, p).Ok?
  {
    SamplesOfCanonical(j.committed);
    SamplesOfCanonical(p.through);
  }

  /** Every well-formed journal passes all checks of `Open` and reopens unchanged. */
  lemma WellFormedReopens(j: Sound)
    ensures Reopen(j, j.scope, j.epoch) == Ok(j)
  {
    SamplesOfCanonical(j.committed);
    SessionChecks(j);
    if j.pending.Some? { PendingChecks(j, j.pending.value); }
    assert forall id :: id in j.drains ==> DrainOk(id, j.drains[id], j);
  }

  /** What a pending batch carries. */
  lemma PendingFacts(j: Sound)
    requires j.pending.Some?
    ensures var b := j.pending.value.batch;
            && b.scope == j.scope && b.epoch == j.epoch && b.sequence == j.next >= 1
            && (forall id :: At(Index(b.entries), id) == At(Index(j.pending.value.through), id).Minus(At(Index(j.committed), id)))
            && forall uid :: OwnerSum(j.pending.value.through, uid) == OwnerSum(j.committed, uid).Plus(OwnerSum(b.entries, uid))
  {
    DeltaSpec(j.committed, j.pending.value.through);
    forall uid ensures OwnerSum(j.pending.value.through, uid) == OwnerSum(j.committed, uid).Plus(OwnerSum(j.pending.value.batch.entries, uid)) {
      OwnerDelta(j.committed, j.pending.value.through, uid);
    }
  }

  /** What the current session has acknowledged beyond its base. */
  lemma SessionFacts(j: Sound)
    requires j.session.Some?
    ensures Canonical(j.session.value.base) && ValidRows(j.session.value.base) && Delta(j.session.value.base, j.committed).Ok?
    ensures forall id :: At(Index(Delta(j.session.value.base, j.committed).value), id) ==
                         At(Index(j.committed), id).Minus(At(Index(j.session.value.base), id))
  {
    DeltaSpec(j.session.value.base, j.committed);
  }

  // ---- transitions ----------------------------------------------------------

  /** `containsFinal`: exactly one row of the identity, and it is the final row. */
  predicate ContainsFinal(rows: seq<Sample>, final: Sample) {
    && (forall i :: 0 <= i < |rows| && rows[i].Id() == final.Id() ==> rows[i] == final)
    && multiset(rows)[final] == 1
  }

  lemma ContainsFinalCanonical(rows: seq<Sample>, final: Sample)
    requires Canonical(rows)
    ensures ContainsFinal(rows, final) <==> Holds(rows, final)
  {
    OrderedDistinct(rows);
    RowCount(rows, final);
    if Holds(rows, final) {
      forall i | 0 <= i < |rows| && rows[i].Id() == final.Id() ensures rows[i] == final { IndexRow(rows, i); }
    }
  }

  /** The middle of `flush`, after a successful replay. */
  function Staged(j: Journal, totals: seq<Sample>): Result<Journal>
    requires ValidRows(j.committed)
  {
    if j.next >= MAX_SEQUENCE then Fail(ErrOther)
    else
      var after := Samples(totals);
      if after.Fail? then Fail(after.error)
      else if exists id :: id in j.drains && j.drains[id].proof.Some? && !ContainsFinal(after.value, j.drains[id].proof.value.final) then Fail(ErrPending)
      else
        var entries := Delta(j.committed, after.value);
        if entries.Fail? then Fail(entries.error)
        else Ok(j.(pending := Some(Pending(BatchOf(j, entries.value), after.value))))
  }

  /** What `replay` saves after a matching acknowledgement. */
  function Advance(j: Journal): Journal
    requires j.pending.Some?
  {
    j.(committed := j.pending.value.through, pending := None, lastAck := Some(AckFor(j.pending.value.batch)), next := j.next + 1)
  }

  /** `canReserve` (its only error is ErrCoverage). */
  predicate CanReserve(j: Journal, r: DrainRequest) {
    && ValidRequest(r)
    && if r.id in j.drains then j.drains[r.id].request == r
       else if r.id in j.reservations then j.reservations[r.id] == r
       else
         && |j.drains| + |j.reservations| < MAX_DRAINS
         && (forall a :: a in j.drains ==> j.drains[a].request.identity != r.identity)
         && (forall a :: a in j.reservations ==> j.reservations[a].identity != r.identity)
  }

  /** `probeReady` before its save. */
  function Reserve(j: Journal, r: DrainRequest): Journal {
    if r.id in j.drains then j else j.(reservations := j.reservations[r.id := r])
  }

  /** The durable hold `Drain` records before it disconnects anything. */
  function Held(j: Journal, r: DrainRequest): Journal {
    j.(drains := j.drains[r.id := DrainRecord(r, None)], reservations := j.reservations - {r.id})
  }

  /** The proof `Drain` stores. */
  function Proven(j: Journal, r: DrainRequest, final: Sample, receipt: Ack): Journal {
    j.(drains := j.drains[r.id := DrainRecord(r, Some(DrainProof(r, j.scope, j.epoch, final, receipt)))])
  }

  /** `beginCounterSession` before its save; `unclean` is ResumeUncleanCounterSession. */
  function Begun(j: Journal, process: string, unclean: bool, now: int): Result<Journal> {
    if !ValidHex(process, 16) then Fail(ErrCoverage)
    else if unclean && (j.session.None? || j.session.value.isSealed) then Fail(ErrEpoch)
    else if j.session.Some? && (j.session.value.process == process || j.pending.Some?) then Fail(ErrEpoch)
    else if j.session.Some? && !j.session.value.isSealed && !unclean then Fail(ErrUnsealed)
    else if j.session.None? && (j.next != 1 || j.committed != [] || j.pending.Some? || |j.drains| != 0 || |j.reservations| != 0) then Fail(ErrEpoch)
    else
      var prior := if j.session.Some? then j.session.value.recovery else None;
      if !unclean then Ok(j.(session := Some(Session(process, j.committed, false, prior))))
      else
        var r := if prior.Some? then prior.value else Recovery(0, now, "");
        if r.count >= MAX_SEQUENCE then Fail(ErrEpoch)
        else Ok(j.(session := Some(Session(process, j.committed, false, Some(Recovery(r.count + 1, r.since, j.session.value.process))))))
  }

  function Seal(j: Journal): Journal
    requires j.session.Some?
  {
    j.(session := Some(j.session.value.(isSealed := true)))
  }

  // ---- each transition keeps the invariant -----------------------------------

  lemma FreshWellFormed(scope: string, epoch: string)
    requires ValidScope(scope) && ValidHex(epoch, 16)
    ensures WellFormed(Fresh(scope, epoch))
  {
  }

  lemma CoversTransitive(a: map<Identity, Usage>, b: map<Identity, Usage>, c: map<Identity, Usage>)
    requires Covers(a, b) && Covers(b, c)
    ensures Covers(a, c)
  {
  }

  lemma StageWellFormed(j: Sound, totals: seq<Sample>)
    requires j.pending.None? && Staged(j, totals).Ok?
    requires j.session.Some? ==> !j.session.value.isSealed
    ensures WellFormed(Staged(j, totals).value)
    ensures Samples(totals) == Ok(Staged(j, totals).value.pending.value.through)
  {
    var after := Samples(totals).value;
    SamplesCanonical(totals);
    DeltaSpec(j.committed, after);
    var s := Staged(j, totals).value;
    forall id | id in s.drains && s.drains[id].proof.Some?
      ensures Holds(after, s.drains[id].proof.value.final)
    {
      ContainsFinalCanonical(after, s.drains[id].proof.value.final);
    }
    assert s.pending.value.batch == BatchOf(s, Delta(s.committed, after).value);
  }

  lemma AdvanceWellFormed(j: Sound)
    requires j.pending.Some?
    ensures WellFormed(Advance(j))
  {
    if j.session.Some? {
      CoversTransitive(Index(j.session.value.base), Index(j.committed), Index(j.pending.value.through));
    }
  }

  lemma ReserveReservations(j: Journal, r: DrainRequest)
    requires ReservationsOk(j) && CanReserve(j, r)
    ensures ReservationsOk(Reserve(j, r))
  {
    hide ValidRequest;
    if r.id !in j.drains && r.id in j.reservations {
      assert j.reservations[r.id := r] == j.reservations;
    }
  }

  lemma ReserveWellFormed(j: Sound, r: DrainRequest)
    requires CanReserve(j, r)
    ensures WellFormed(Reserve(j, r))
  {
    ReserveReservations(j, r);
    hide ReservationsOk, CanReserve;
    var k := Reserve(j, r);
    forall id | id in k.drains ensures DrainOk(id, k.drains[id], k) { assert DrainOk(id, j.drains[id], j); }
  }

  lemma HoldCounts(j: Journal, r: DrainRequest)
    requires r.id !in j.drains
    ensures |Held(j, r).drains| == |j.drains| + 1
    ensures |Held(j, r).reservations| == |j.reservations| - (if r.id in j.reservations then 1 else 0)
  {
    var h := Held(j, r);
    assert h.drains.Keys == j.drains.Keys + {r.id};
    assert h.reservations.Keys == j.reservations.Keys - {r.id};
  }

  /** A reserved identity is no other drain's and no other reservation's. */
  lemma HoldApart(j: Journal, r: DrainRequest)
    requires ReservationsOk(j) && CanReserve(j, r) && r.id !in j.drains
    ensures forall a :: a in j.drains ==> j.drains[a].request.identity != r.identity
    ensures forall a :: a in j.reservations && a != r.id ==> j.reservations[a].identity != r.identity
    ensures |j.drains| + |j.reservations| - (if r.id in j.reservations then 1 else 0) < MAX_DRAINS
  {
    hide ValidRequest;
  }

  lemma HoldDrains(j: Journal, r: DrainRequest)
    requires ReservationsOk(j) && forall a :: a in j.drains ==> j.drains[a].request.identity != r.identity
    ensures var d := Held(j, r).drains;
            forall a, b :: a in d && b in d && a != b ==> d[a].request.identity != d[b].request.identity
  {
    hide ValidRequest;
  }

  lemma HoldPromises(j: Journal, r: DrainRequest)
    requires ReservationsOk(j) && forall a :: a in j.reservations && a != r.id ==> j.reservations[a].identity != r.identity
    ensures var h := Held(j, r);
            && (forall a :: a in h.reservations ==> ValidRequest(h.reservations[a]) && h.reservations[a].id == a && a !in h.drains)
            && (forall a, b :: a in h.reservations && b in h.drains ==> h.reservations[a].identity != h.drains[b].request.identity)
            && (forall a, b :: a in h.reservations && b in h.reservations && a != b ==> h.reservations[a].identity != h.reservations[b].identity)
  {
    hide ValidRequest;
  }

  lemma HoldFacts(j: Journal, r: DrainRequest)
    requires ReservationsOk(j) && CanReserve(j, r) && r.id !in j.drains
    ensures var h := Held(j, r);
            && |h.drains| + |h.reservations| <= MAX_DRAINS
            && (forall a, b :: a in h.drains && b in h.drains && a != b ==> h.drains[a].request.identity != h.drains[b].request.identity)
            && (forall a :: a in h.reservations ==> ValidRequest(h.reservations[a]) && h.reservations[a].id == a && a !in h.drains)
            && (forall a, b :: a in h.reservations && b in h.drains ==> h.reservations[a].identity != h.drains[b].request.identity)
            && (forall a, b :: a in h.reservations && b in h.reservations && a != b ==> h.reservations[a].identity != h.reservations[b].identity)
  {
    hide ReservationsOk, CanReserve, Held;
    HoldCounts(j, r);
    HoldApart(j, r);
    HoldDrains(j, r);
    HoldPromises(j, r);
  }

  lemma HoldReservations(j: Journal, r: DrainRequest)
    requires ReservationsOk(j) && CanReserve(j, r) && r.id !in j.drains
    ensures ReservationsOk(Held(j, r))
  {
    hide ValidRequest;
    HoldFacts(j, r);
    hide CanReserve, Held;
  }

  lemma HoldWellFormed(j: Sound, r: DrainRequest)
    requires CanReserve(j, r) && r.id !in j.drains
    ensures WellFormed(Held(j, r))
  {
    HoldReservations(j, r);
    var h := Held(j, r);
    forall id | id in h.drains ensures DrainOk(id, h.drains[id], h) {
      if id != r.id { assert DrainOk(id, j.drains[id], j); }
    }
    assert DrainInv(h);
  }

  /** What `Drain` has established when it stores a proof. */
  ghost predicate Provable(j: Journal, r: DrainRequest, final: Sample, receipt: Ack) {
    && r.id in j.drains && j.drains[r.id] == DrainRecord(r, None)
    && j.pending.None? && j.lastAck == Some(receipt) && final.Id() == r.identity && Holds(j.committed, final)
  }

  lemma ProveReservations(j: Journal, r: DrainRequest, final: Sample, receipt: Ack)
    requires ReservationsOk(j) && r.id in j.drains && j.drains[r.id].request == r
    ensures ReservationsOk(Proven(j, r, final, receipt))
  {
    var p := Proven(j, r, final, receipt);
    assert p.drains.Keys == j.drains.Keys;
    assert forall id :: id in p.drains ==> p.drains[id].request == j.drains[id].request;
  }

  lemma ProveWellFormed(j: Sound, r: DrainRequest, final: Sample, receipt: Ack)
    requires Provable(j, r, final, receipt)
    ensures WellFormed(Proven(j, r, final, receipt))
  {
    ProveReservations(j, r, final, receipt);
    CanonicalIndex(j.committed);
    var p := Proven(j, r, final, receipt);
    assert DrainOk(r.id, j.drains[r.id], j);
    assert DrainOk(r.id, p.drains[r.id], p) by {
      assert j.next == receipt.sequence + 1;
      assert j.lastAck.Some?;
    }
    forall id | id in p.drains && id != r.id ensures DrainOk(id, p.drains[id], p) {
      assert DrainOk(id, j.drains[id], j);
    }
    assert DrainInv(p);
  }

  /** A begun session reopens unless it is the first unclean resume of its epoch
      under a clock at or before 1970: `Open` refuses a non-positive `Since`. */
  lemma BeginWellFormed(j: Sound, process: string, unclean: bool, now: int)
    requires Begun(j, process, unclean, now).Ok?
    ensures WellFormed(Begun(j, process, unclean, now).value) <==>
            !(unclean && j.session.value.recovery.None? && now <= 0)
    ensures Reopen(Begun(j, process, unclean, now).value, j.scope, j.epoch).Ok? <==>
            !(unclean && j.session.value.recovery.None? && now <= 0)
  {
    var b := Begun(j, process, unclean, now).value;
    if unclean && j.session.value.recovery.None? && now <= 0 {
      assert CheckSession(b).Fail?;
    } else {
      assert WellFormed(b);
      WellFormedReopens(b);
    }
  }

  /** Such a journal is really written: a process that begins in a fresh epoch, dies,
      and is resumed uncleanly at second 0 leaves a journal that never opens. */
  lemma EarlyResumeSticks(scope: string, epoch: string, first: string, second: string)
    requires ValidScope(scope) && ValidHex(epoch, 16) && ValidHex(first, 16) && ValidHex(second, 16) && first != second
    ensures var begun := Begun(Fresh(scope, epoch), first, false, 0);
            && begun.Ok? && Reopen(begun.value, scope, epoch).Ok?
            && var resumed := Begun(begun.value, second, true, 0);
               resumed.Ok? && Reopen(resumed.value, scope, epoch).Fail?
  {
    FreshWellFormed(scope, epoch);
    var j := Fresh(scope, epoch);
    BeginWellFormed(j, first, false, 0);
    var b := Begun(j, first, false, 0).value;
    BeginWellFormed(b, second, true, 0);
  }

  lemma SealWellFormed(j: Sound)
    requires j.session.Some? && j.pending.None? && j.lastAck.Some?
    ensures WellFormed(Seal(j))
  {
  }
}
