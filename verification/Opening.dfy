/** What `Open` demands of a stored journal (common/beuptransfer: outbox.go, drain.go,
    reservation.go, counter_session.go), said without its checks. */
module Opening {
  import opened Text
  import opened Counters
  import opened Journals

  /** Counter rows as they may be stored: valid, one per identity, not too many. */
  ghost predicate Inventory(rows: seq<Sample>) { |rows| <= MAX_SAMPLES && ValidRows(rows) && DistinctIds(rows) }

  /** `entries` are the sorted rows of `after` minus those of `before`. */
  ghost predicate Difference(before: seq<Sample>, after: seq<Sample>, entries: seq<Sample>) {
    && Covers(Index(before), Index(after)) && Canonical(entries) && Index(entries).Keys == Index(after).Keys
    && forall id :: At(Index(entries), id) == At(Index(after), id).Minus(At(Index(before), id))
  }

  /** The pending batch is the next of the stream, under its own digest, and carries
      exactly what `through` adds to what is committed. */
  ghost predicate Waiting(j: Journal, p: Pending) {
    && Inventory(p.through) && Difference(j.committed, p.through, p.batch.entries)
    && p.batch.version == 1 && p.batch.scope == j.scope && p.batch.epoch == j.epoch && p.batch.sequence == j.next && p.batch.digest == Hash(p.batch)
  }

  /** The last acknowledgement is of this stream and of the batch before the next. */
  predicate Acknowledged(j: Journal) {
    match j.lastAck
    case Some(a) => a.scope == j.scope && a.epoch == j.epoch && a.sequence + 1 == j.next
    case None => j.next == 1 && j.committed == []
  }

  /** All requests the journal has promised to drain or is draining. */
  function Promises(j: Journal): set<DrainRequest> {
    (set id | id in j.drains :: j.drains[id].request) + (set id | id in j.reservations :: j.reservations[id])
  }

  ghost predicate Promising(j: Journal) {
    && |j.drains| + |j.reservations| <= 1000 && j.drains.Keys !! j.reservations.Keys
    && (forall id :: id in j.drains ==> j.drains[id].request.id == id) && (forall id :: id in j.reservations ==> j.reservations[id].id == id)
    && (forall r :: r in Promises(j) ==> ValidRequest(r))
    && (forall r, q :: r in Promises(j) && q in Promises(j) && r != q ==> r.identity != q.identity)
  }

  /** A stored proof is of this stream, earlier than the next batch, and of its identity. */
  ghost predicate Proof(j: Journal, d: DrainRecord) {
    d.proof.Some? ==>
      var p := d.proof.value;
      && p.request == d.request && p.scope == p.receipt.scope == j.scope && p.epoch == p.receipt.epoch == j.epoch
      && 1 <= p.receipt.sequence < j.next && p.final.Id() == d.request.identity && ZERO.Within(p.final.Used())
  }

  /** The counters have not fallen below the base of the session; a recovery mark is
      complete; a sealed session has everything acknowledged. */
  ghost predicate InSession(j: Journal, s: Session) {
    && ValidHex(s.process, 16) && Inventory(s.base) && Covers(Index(s.base), Index(j.committed))
    && (s.recovery.Some? ==> 1 <= s.recovery.value.count <= MAX_SEQUENCE && s.recovery.value.since > 0 && ValidHex(s.recovery.value.previous, 16))
    && (s.isSealed ==> j.pending.None? && j.lastAck.Some?)
  }

  ghost predicate Acceptable(j: Journal, scope: string, epoch: string) {
    && ValidScope(scope) && ValidHex(epoch, 16) && j.version == 1 && j.scope == scope && j.epoch == epoch && 1 <= j.next <= MAX_SEQUENCE
    && Inventory(j.committed) && Acknowledged(j) && (j.pending.Some? ==> Waiting(j, j.pending.value))
    && Promising(j) && (forall id :: id in j.drains ==> Proof(j, j.drains[id])) && (j.session.Some? ==> InSession(j, j.session.value))
  }

  lemma InventoryExactly(rows: seq<Sample>)
    ensures Samples(rows).Ok? <==> Inventory(rows)
  {
    SamplesSpec(rows, rows);
  }

  lemma CoversExactly(before: seq<Sample>, after: seq<Sample>)
    requires ValidRows(before) && Inventory(after)
    ensures Delta(before, after).Ok? <==> Covers(Index(before), Index(after))
  {
    IndexNonNegative(before);
    IndexNonNegative(after);
    hide Index, DistinctIds, Covers;
    DeltaRows(Index(before), after);
    DeltaCovers(Index(before), after);
  }

  lemma DifferenceExactly(before: seq<Sample>, after: seq<Sample>, entries: seq<Sample>)
    requires ValidRows(before) && Canonical(after)
    ensures Delta(before, after) == Ok(entries) <==> Difference(before, after, entries)
  {
    CanonicalIndex(after);
    IndexNonNegative(before);
    assert Inventory(after);
    CoversExactly(before, after);
    hide Index, DistinctIds, Covers, Canonical;
    if Delta(before, after).Ok? {
      var out := Delta(before, after).value;
      DeltaRows(Index(before), after);
      DeltaDifference(Index(before), after, out);
      if Difference(before, after, entries) {
        SameUsage(out, entries);
      }
    }
  }

  lemma SameUsage(a: seq<Sample>, b: seq<Sample>)
    requires Canonical(a) && Canonical(b) && Index(a).Keys == Index(b).Keys && forall id :: At(Index(a), id) == At(Index(b), id)
    ensures a == b
  {
    hide Canonical, Index;
    forall id | id in Index(a) ensures Index(a)[id] == Index(b)[id] { assert At(Index(a), id) == At(Index(b), id); }
    assert Index(a) == Index(b);
    CanonicalByIndex(a, b);
  }

  lemma WaitingExactly(j: Journal, p: Pending)
    requires Inventory(j.committed) && Samples(j.committed).Ok?
    ensures CheckPending(j, p).Ok? <==> Waiting(j, p)
  {
    InventoryExactly(p.through);
    if Samples(p.through).Ok? {
      var t := Samples(p.through).value;
      SamplesSpec(p.through, t);
      IndexPermuted(p.through, t);
      hide Samples, Delta, Difference, Canonical, DistinctIds, Index;
      DifferenceExactly(j.committed, t, p.batch.entries);
      SameDifference(j.committed, t, p.through, p.batch.entries);
      assert BatchOf(j, p.batch.entries).digest == Hash(p.batch) ==>
             (p.batch == BatchOf(j, p.batch.entries) <==> p.batch == Batch(1, j.scope, j.epoch, j.next, p.batch.entries, p.batch.digest) && p.batch.digest == Hash(p.batch));
    }
  }

  lemma SameDifference(before: seq<Sample>, a: seq<Sample>, b: seq<Sample>, entries: seq<Sample>)
    requires Index(a) == Index(b)
    ensures Difference(before, a, entries) <==> Difference(before, b, entries)
  {
  }

  lemma SessionExactly(j: Journal)
    requires Inventory(j.committed)
    ensures CheckSession(j).Ok? <==> (j.session.Some? ==> InSession(j, j.session.value))
  {
    if j.session.Some? {
      var s := j.session.value;
      InventoryExactly(s.base);
      if Inventory(s.base) { CoversExactly(s.base, j.committed); }
      hide Samples, Delta, Covers, DistinctIds, Index, ValidHex;
    }
  }

  lemma PromisesExactly(j: Journal)
    ensures ReservationsOk(j) && (forall id :: id in j.drains ==> DrainOk(id, j.drains[id], j)) <==>
            Promising(j) && forall id :: id in j.drains ==> Proof(j, j.drains[id])
  {
    hide ValidRequest;
    if ReservationsOk(j) && forall id :: id in j.drains ==> DrainOk(id, j.drains[id], j) { PromisesKept(j); }
    if Promising(j) && forall id :: id in j.drains ==> Proof(j, j.drains[id]) { PromisesMade(j); }
  }

  lemma PromisesKept(j: Journal)
    requires ReservationsOk(j) && forall id :: id in j.drains ==> DrainOk(id, j.drains[id], j)
    ensures Promising(j) && forall id :: id in j.drains ==> Proof(j, j.drains[id])
  {
    hide ValidRequest;
    forall id | id in j.drains ensures j.drains[id].request.id == id && ValidRequest(j.drains[id].request) && Proof(j, j.drains[id]) {
      assert DrainOk(id, j.drains[id], j);
    }
    forall r, q | r in Promises(j) && q in Promises(j) && r != q ensures r.identity != q.identity { ApartPromises(j, r, q); }
  }

  lemma ApartPromises(j: Journal, r: DrainRequest, q: DrainRequest)
    requires ReservationsOk(j) && (forall id :: id in j.drains ==> j.drains[id].request.id == id)
    requires r in Promises(j) && q in Promises(j) && r != q
    ensures r.identity != q.identity
  {
    hide ValidRequest;
    assert (r.id in j.drains && j.drains[r.id].request == r) || (r.id in j.reservations && j.reservations[r.id] == r);
    assert (q.id in j.drains && j.drains[q.id].request == q) || (q.id in j.reservations && j.reservations[q.id] == q);
  }

  lemma PromisesMade(j: Journal)
    requires Promising(j) && forall id :: id in j.drains ==> Proof(j, j.drains[id])
    ensures ReservationsOk(j) && forall id :: id in j.drains ==> DrainOk(id, j.drains[id], j)
  {
    hide ValidRequest;
    forall id | id in j.drains ensures DrainOk(id, j.drains[id], j) { assert j.drains[id].request in Promises(j) && Proof(j, j.drains[id]); }
    forall id | id in j.reservations ensures ValidRequest(j.reservations[id]) && id !in j.drains { assert j.reservations[id] in Promises(j); }
    forall a, b | a in j.drains && b in j.drains && a != b ensures j.drains[a].request.identity != j.drains[b].request.identity {
      assert j.drains[a].request in Promises(j) && j.drains[b].request in Promises(j);
    }
    forall a, b | a in j.reservations && b in j.drains ensures j.reservations[a].identity != j.drains[b].request.identity {
      assert j.reservations[a] in Promises(j) && j.drains[b].request in Promises(j) && a != b;
    }
    forall a, b | a in j.reservations && b in j.reservations && a != b ensures j.reservations[a].identity != j.reservations[b].identity {
      assert j.reservations[a] in Promises(j) && j.reservations[b] in Promises(j);
    }
  }

  lemma DrainsBounded(j: Journal)
    requires Promising(j)
    ensures |j.drains| <= MAX_DRAINS
  {
  }

  /** `Open` accepts exactly the journals of its own stream that are sound in all parts,
      and continues with what is stored. */
  lemma OpensExactly(j: Journal, scope: string, epoch: string)
    ensures Reopen(j, scope, epoch).Ok? <==> Acceptable(j, scope, epoch)
    ensures Reopen(j, scope, epoch).Ok? ==> Reopen(j, scope, epoch).value == j
  {
    InventoryExactly(j.committed);
    PromisesExactly(j);
    if Inventory(j.committed) {
      SessionExactly(j);
      if j.pending.Some? { WaitingExactly(j, j.pending.value); }
    }
    if Promising(j) { DrainsBounded(j); }
    hide Samples, CheckSession, CheckPending, InSession, Waiting, Promising, ReservationsOk, DrainOk, Proof, Inventory, ValidHex, ValidScope;
  }

  /** A journal of another generation, sound otherwise, is refused as such. */
  lemma OtherEpochRefused(j: Journal, scope: string, epoch: string)
    requires Acceptable(j, scope, j.epoch) && ValidHex(epoch, 16) && epoch != j.epoch
    ensures Reopen(j, scope, epoch) == Fail(ErrEpoch)
  {
    OpensExactly(j, scope, j.epoch);
    hide Samples, CheckSession, CheckPending, Acceptable, ReservationsOk, DrainOk, ValidHex, ValidScope;
  }

  /** Every promise is filed under its own name. */
  ghost predicate Filed(j: Journal) {
    (forall id :: id in j.drains ==> j.drains[id].request.id == id) && (forall id :: id in j.reservations ==> j.reservations[id].id == id)
  }

  lemma PromiseFiled(j: Journal, q: DrainRequest)
    requires Filed(j)
    ensures q in Promises(j) <==> (q.id in j.drains && j.drains[q.id].request == q) || (q.id in j.reservations && j.reservations[q.id] == q)
  {
  }

  /** A request can be promised exactly when it is valid and promised already, or there is
      room and neither its name nor its identity is taken. */
  lemma PromiseExactly(j: Sound, r: DrainRequest)
    ensures CanReserve(j, r) <==>
            ValidRequest(r) && (r in Promises(j) || (|j.drains| + |j.reservations| < 1000 && forall q :: q in Promises(j) ==> q.id != r.id && q.identity != r.identity))
  {
    forall id | id in j.drains ensures j.drains[id].request.id == id { assert DrainOk(id, j.drains[id], j); }
    assert Filed(j) && forall id :: id in j.drains ==> id !in j.reservations;
    hide WellFormed, ValidRequest, Promises;
    PromiseFiled(j, r);
    forall q ensures q in Promises(j) <==> (q.id in j.drains && j.drains[q.id].request == q) || (q.id in j.reservations && j.reservations[q.id] == q) { PromiseFiled(j, q); }
    if r.id in j.drains { assert j.drains[r.id].request in Promises(j); }
    if r.id in j.reservations { assert j.reservations[r.id] in Promises(j); }
    forall id | id in j.drains ensures j.drains[id].request in Promises(j) { }
    forall id | id in j.reservations ensures j.reservations[id] in Promises(j) { }
  }

  /** A session begins exactly on a journal nothing has happened to, or after a sealed
      one, or, uncleanly, after one that is not sealed; never under the name of the one
      before, and never while a batch waits. */
  lemma BeginExactly(j: Journal, process: string, unclean: bool, now: int)
    ensures Begun(j, process, unclean, now).Ok? <==>
            && ValidHex(process, 16) && j.pending.None?
            && match j.session
               case None => !unclean && j.next == 1 && j.committed == [] && j.drains == map[] && j.reservations == map[]
               case Some(s) => s.process != process && s.isSealed != unclean && (unclean && s.recovery.Some? ==> s.recovery.value.count < MAX_SEQUENCE)
    ensures Begun(j, process, unclean, now).Ok? ==>
            var k := Begun(j, process, unclean, now).value;
            && k == j.(session := k.session) && k.session.Some? && k.session.value.process == process && k.session.value.base == j.committed && !k.session.value.isSealed
            && (k.session.value.recovery.Some? <==> unclean || (j.session.Some? && j.session.value.recovery.Some?))
  {
    hide ValidHex;
    assert |j.drains| == 0 <==> j.drains == map[];
    assert |j.reservations| == 0 <==> j.reservations == map[];
  }
}
