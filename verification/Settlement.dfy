/** What every run of the node, its disk and the panel keeps. */
module Settlement {
  import opened Text
  import opened Counters
  import opened Journals
  import opened Delivery

  /** Everything the panel has ever booked for an identity. */
  ghost function Booked(log: seq<Batch>, id: Identity): Usage {
    if log == [] then ZERO else Booked(log[..|log| - 1], id).Plus(At(Index(log[|log| - 1].entries), id))
  }

  /** What all batches together report for one owner. */
  ghost function Ledger(log: seq<Batch>, uid: int): Usage {
    if log == [] then ZERO else Ledger(log[..|log| - 1], uid).Plus(OwnerSum(log[|log| - 1].entries, uid))
  }

  ghost function Contributed(segments: seq<Segment>, id: Identity): Usage {
    if segments == [] then ZERO
    else Contributed(segments[..|segments| - 1], id).Plus(At(Index(segments[|segments| - 1].raw), id))
  }

  // ---- the invariant ------------------------------------------------------------

  /** The pending batch has been booked although the journal does not know it yet. */
  predicate Ahead(j: Journal, log: seq<Batch>) {
    0 < j.next == |log| && j.pending.Some? && log[j.next - 1] == j.pending.value.batch
  }

  ghost predicate LogInv(j: Journal, log: seq<Batch>) {
    && j.next >= 1 && (|log| == j.next - 1 || Ahead(j, log))
    && (forall i :: 0 <= i < |log| ==> log[i].scope == j.scope && log[i].epoch == j.epoch && log[i].sequence == i + 1)
    && (forall id :: Booked(log[..j.next - 1], id) == At(Index(j.committed), id))
    && (forall uid :: Ledger(log[..j.next - 1], uid) == OwnerSum(j.committed, uid))
  }

  ghost predicate Traced(j: Journal, log: seq<Batch>, batches: set<Batch>) {
    forall b :: b in batches ==> b in log || (j.pending.Some? && b == j.pending.value.batch)
  }

  ghost predicate PanelInv(j: Journal, p: Panel) {
    LogInv(j, p.log) && Traced(j, p.log, p.queue) && Traced(j, p.log, p.sent)
  }

  ghost predicate SegmentInv(j: Journal, segments: seq<Segment>) {
    match j.session
    case None => segments == []
    case Some(s) =>
      && (forall id :: Contributed(segments, id) == At(Index(if s.isSealed then j.committed else s.base), id))
      && (s.recovery.None? ==> forall i :: 0 <= i < |segments| ==> segments[i].complete)
  }

  /** The journal agrees with the panel and with what the processes counted. */
  ghost predicate Backed(j: Journal, p: Panel, segments: seq<Segment>) { PanelInv(j, p) && SegmentInv(j, segments) }

  ghost predicate NodeInv(n: Node, j: Journal) {
    !n.poisoned ==>
      && n.state == j
      && (n.live.Some? ==> j.session.Some? && n.live.value == Live(j.session.value.process, j.session.value.base, j.session.value.recovery.Some?))
  }

  ghost predicate Inv(s: Sys) {
    match s.disk
    case None => s.node.None? && s.panel == Panel([], {}, {}) && s.segments == []
    case Some(j) => j.scope == s.scope && j.epoch == s.epoch && WellFormed(j) && Backed(j, s.panel, s.segments) && (s.node.Some? ==> NodeInv(s.node.value, j))
  }

  /** A system state that satisfies the invariant. */
  type Good = s: Sys | Inv(s) ghost witness Boot("", "")

  // ---- one step -------------------------------------------------------------------

  /** Booking the pending batch lands it exactly once. */
  lemma LandPending(j: Sound, p: Panel, b: Batch)
    requires PanelInv(j, p) && j.pending.Some? && j.pending.value.batch == b
    ensures Accepts(p.log, b)
    ensures |Land(p.log, b)| == j.next && Land(p.log, b)[j.next - 1] == b
    ensures Land(p.log, b)[..j.next - 1] == p.log[..j.next - 1]
    ensures LogInv(j, Land(p.log, b)) && p.log <= Land(p.log, b)
  {
    hide WellFormed, Index, At, OwnerSum, Booked, Ledger;
    PendingFacts(j);
    if Ahead(j, p.log) {
      assert SameSlot(p.log[j.next - 1], b);
    } else {
      assert !Occupied(p.log, b);
      assert (p.log + [b])[..j.next - 1] == p.log[..j.next - 1];
    }
  }

  lemma TracedMore(j: Journal, log: seq<Batch>, log': seq<Batch>, batches: set<Batch>)
    requires Traced(j, log, batches) && log <= log'
    ensures Traced(j, log', batches)
  {
    forall b | b in batches && b in log ensures b in log' {
      var i :| 0 <= i < |log| && log[i] == b;
      assert log'[i] == b;
    }
  }

  lemma CommitKeeps(j: Sound, p: Panel, reply: Reply)
    requires PanelInv(j, p) && j.pending.Some?
    ensures PanelInv(j, Commit(p, j.pending.value.batch, reply).after)
    ensures Commit(p, j.pending.value.batch, reply).result == Ok(AckFor(j.pending.value.batch)) ==>
              Ahead(j, Commit(p, j.pending.value.batch, reply).after.log)
  {
    hide WellFormed, LogInv, Land, Accepts;
    var b := j.pending.value.batch;
    assert j.next >= 1 by { PendingNext(j, p); }
    LandPending(j, p, b);
    TracedMore(j, p.log, Land(p.log, b), p.queue);
    TracedMore(j, p.log, Land(p.log, b), p.sent);
  }

  lemma PendingNext(j: Sound, p: Panel)
    requires PanelInv(j, p)
    ensures j.next >= 1
  {
    hide WellFormed, Booked, Ledger, Index, Traced;
  }

  lemma SettleKeeps(j: Sound, p: Panel, b: Batch)
    requires PanelInv(j, p)
    ensures PanelInv(j, Settle(p, b))
  {
    if b in p.queue {
      if b in p.log {
        var i :| 0 <= i < |p.log| && p.log[i] == b;
        assert SameSlot(p.log[i], b);
      } else {
        LandPending(j, p, b);
        TracedMore(j, p.log, Land(p.log, b), p.queue);
        TracedMore(j, p.log, Land(p.log, b), p.sent);
      }
    }
  }

  lemma AdvanceBooks(j: Journal, log: seq<Batch>)
    requires LogInv(j, log) && Ahead(j, log)
    requires var b := j.pending.value.batch;
             && (forall id :: At(Index(b.entries), id) == At(Index(j.pending.value.through), id).Minus(At(Index(j.committed), id)))
             && forall uid :: OwnerSum(j.pending.value.through, uid) == OwnerSum(j.committed, uid).Plus(OwnerSum(b.entries, uid))
    ensures LogInv(Advance(j), log)
  {
    hide Index, At, OwnerSum;
    var through := j.pending.value.through;
    assert log[..j.next] == log;
    forall id ensures Booked(log, id) == At(Index(through), id) {
      assert Booked(log[..j.next - 1], id) == At(Index(j.committed), id);
      PlusMinus(At(Index(j.committed), id), At(Index(through), id));
    }
    forall uid ensures Ledger(log, uid) == OwnerSum(through, uid) {
      assert Ledger(log[..j.next - 1], uid) == OwnerSum(j.committed, uid);
    }
  }

  /** Once the batch is booked the journal may advance over it. */
  lemma AdvanceKeeps(j: Sound, p: Panel, segments: seq<Segment>)
    requires Backed(j, p, segments) && Ahead(j, p.log)
    ensures Backed(Advance(j), p, segments)
  {
    hide WellFormed, LogInv, Index, At, OwnerSum, Contributed;
    PendingFacts(j);
    AdvanceBooks(j, p.log);
    AdvanceSession(j);
    assert p.log[j.next - 1] in p.log;
  }

  lemma AdvanceSession(j: Sound)
    requires j.pending.Some?
    ensures j.session.Some? ==> !j.session.value.isSealed
  {
  }

  lemma SaveKeeps(s: Good, j: Sound, segments: seq<Segment>, w: Write)
    requires s.node.Some? && j.scope == s.scope && j.epoch == s.epoch
    requires !s.node.value.poisoned ==> Backed(j, s.panel, segments)
    requires s.node.value.live.Some? && !s.node.value.poisoned ==> j.session.Some? && s.node.value.state.session.Some? && j.session.value.(isSealed := false) == s.node.value.state.session.value.(isSealed := false)
    ensures Inv(Save(s, j, segments, w).after)
  {
    hide WellFormed, Backed;
  }

  lemma DeliverKeeps(s: Good, reply: Reply, w: Write)
    requires s.node.Some?
    ensures Inv(Deliver(s, reply, w).after)
  {
    hide WellFormed, PanelInv, SegmentInv;
    var n := s.node.value;
    if !n.poisoned && n.state.pending.Some? {
      var j := s.disk.value;
      var b := j.pending.value.batch;
      CommitKeeps(j, s.panel, reply);
      var c := Commit(s.panel, b, reply);
      var s1 := s.(panel := c.after);
      if c.result == Ok(AckFor(b)) {
        AdvanceWellFormed(j);
        AdvanceKeeps(j, c.after, s.segments);
        SaveKeeps(s1, Advance(j), s.segments, w);
      }
    }
  }

  /** A change that leaves totals, sequence and session alone keeps the panel's view. */
  lemma SameTotals(j: Journal, k: Journal, p: Panel, segments: seq<Segment>)
    requires Backed(j, p, segments)
    requires k.scope == j.scope && k.epoch == j.epoch && k.next == j.next && k.committed == j.committed && k.session == j.session
    requires k.pending == j.pending || j.pending.None?
    ensures Backed(k, p, segments)
  {
  }

  lemma StagedShape(j: Journal, totals: seq<Sample>)
    requires ValidRows(j.committed) && Staged(j, totals).Ok?
    ensures var k := Staged(j, totals).value; k == j.(pending := k.pending)
  {
    hide Samples, Delta, ContainsFinal, BatchOf;
  }

  lemma StageKeeps(s: Good, totals: seq<Sample>, w: Write)
    requires Idle(s) && !IsSealed(s.node.value.state)
    ensures Inv(Stage(s, totals, w).after)
  {
    var j := s.disk.value;
    if Staged(j, totals).Ok? {
      var k := Staged(j, totals).value;
      StageWellFormed(j, totals);
      StagedShape(j, totals);
      hide Staged, WellFormed, Backed;
      SameTotals(j, k, s.panel, s.segments);
      SaveKeeps(s, k, s.segments, w);
    }
  }

  lemma ProbeKeeps(s: Good, r: DrainRequest, w: Write)
    requires s.node.Some?
    ensures Inv(Probe(s, r, w).after)
  {
    var j := s.disk.value;
    if !s.node.value.poisoned && CanReserve(j, r) {
      ReserveWellFormed(j, r);
      SameTotals(j, Reserve(j, r), s.panel, s.segments);
      SaveKeeps(s, Reserve(j, r), s.segments, w);
    }
  }

  lemma HoldKeeps(s: Good, r: DrainRequest, w: Write)
    requires s.node.Some?
    ensures Inv(Hold(s, r, w).after)
  {
    var j := s.disk.value;
    if !s.node.value.poisoned && r.id !in j.drains && CanReserve(j, r) {
      HoldWellFormed(j, r);
      SameTotals(j, Held(j, r), s.panel, s.segments);
      SaveKeeps(s, Held(j, r), s.segments, w);
    }
  }

  lemma ProveKeeps(s: Good, via: Via, r: DrainRequest, final: Sample, receipt: Ack, w: Write)
    requires Proving(s, via, r, final, receipt)
    ensures Inv(Prove(s, r, final, receipt, w).after)
  {
    var j := s.disk.value;
    ProveWellFormed(j, r, final, receipt);
    SameTotals(j, Proven(j, r, final, receipt), s.panel, s.segments);
    SaveKeeps(s, Proven(j, r, final, receipt), s.segments, w);
  }

  /** Giving a process up keeps what it had acknowledged. */
  lemma AbandonKeeps(j: Sound, segments: seq<Segment>)
    requires SegmentInv(j, segments) && j.session.Some? && !j.session.value.isSealed
    ensures forall id :: Contributed(segments + Abandoned(j), id) == At(Index(j.committed), id)
  {
    hide WellFormed, Index, At, Canonical;
    SessionFacts(j);
    var base := j.session.value.base;
    var d := Segment(Delta(base, j.committed).value, false);
    var after := segments + Abandoned(j);
    assert after[|after| - 1] == d && after[..|after| - 1] == segments;
    forall id ensures Contributed(after, id) == At(Index(j.committed), id) {
      assert Contributed(segments, id) == At(Index(base), id);
      assert At(Index(d.raw), id) == At(Index(j.committed), id).Minus(At(Index(base), id));
      PlusMinus(At(Index(base), id), At(Index(j.committed), id));
    }
  }

  lemma BeganPanel(j: Journal, k: Journal, p: Panel)
    requires PanelInv(j, p) && k == j.(session := k.session)
    ensures PanelInv(k, p)
  {
  }

  lemma BeginBacked(j: Sound, p: Panel, segments: seq<Segment>, process: string, unclean: bool, now: int)
    requires Backed(j, p, segments) && Begun(j, process, unclean, now).Ok?
    ensures Backed(Begun(j, process, unclean, now).value, p, if unclean then segments + Abandoned(j) else segments)
  {
    var k := Begun(j, process, unclean, now).value;
    assert PanelInv(k, p) by { hide WellFormed, Booked, SegmentInv, ValidHex, Ledger, OwnerSum, Index, Traced; BeganPanel(j, k, p); }
    hide PanelInv;
    if unclean { AbandonKeeps(j, segments); }
    hide WellFormed, Booked, Contributed, Index, Abandoned, Canonical, ValidHex;
    assert j.session.None? ==> Index(j.committed) == Index([]);
    if j.session.None? {
      assert forall id :: At(Index(j.committed), id) == Contributed(segments, id) by { EmptyTotals(); }
    }
  }

  lemma EmptyTotals()
    ensures Index([]) == map[] && forall id :: Contributed([], id) == ZERO
  {
  }

  lemma BeginKeeps(s: Good, process: string, unclean: bool, now: int, w: Write)
    requires s.node.Some? && Timely(s, DoBegin(process, unclean, now, w))
    ensures Inv(Begin(s, process, unclean, now, w).after)
  {
    hide WellFormed, Backed, Abandoned, Begun;
    var n := s.node.value;
    var j := s.disk.value;
    if !n.poisoned && Begun(j, process, unclean, now).Ok? {
      BegunShape(j, process, unclean, now);
      BeginWellFormed(j, process, unclean, now);
      BeginBacked(j, s.panel, s.segments, process, unclean, now);
    }
  }

  lemma BegunShape(j: Journal, process: string, unclean: bool, now: int)
    requires Begun(j, process, unclean, now).Ok?
    ensures var k := Begun(j, process, unclean, now).value;
            k == j.(session := k.session) && k.session.Some? && k.session.value.process == process && (unclean ==> j.session.Some?)
  {
    hide ValidHex;
  }

  lemma SealContributes(base: seq<Sample>, committed: seq<Sample>, raw: seq<Sample>, segments: seq<Segment>)
    requires forall id :: Contributed(segments, id) == At(Index(base), id)
    requires forall id :: At(Index(committed), id) == At(Index(base), id).Plus(At(Index(raw), id))
    ensures forall id :: Contributed(segments + [Segment(raw, true)], id) == At(Index(committed), id)
  {
    hide Index, At;
    var after := segments + [Segment(raw, true)];
    assert after[|after| - 1].raw == raw && after[..|after| - 1] == segments;
    forall id ensures Contributed(after, id) == At(Index(committed), id) {
      assert Contributed(segments, id) == At(Index(base), id);
    }
  }

  lemma SealBacked(j: Journal, p: Panel, segments: seq<Segment>, raw: seq<Sample>)
    requires Backed(j, p, segments) && j.session.Some?
    requires forall id :: Contributed(segments + [Segment(raw, true)], id) == At(Index(j.committed), id)
    ensures Backed(Seal(j), p, segments + [Segment(raw, true)])
  {
    hide Index, At, Booked, Contributed;
  }

  lemma SealKeeps(s: Good, process: string, raw: seq<Sample>, w: Write)
    requires Sealing(s, process, raw)
    ensures Inv(SealUp(s, raw, w).after)
  {
    var j := s.disk.value;
    var k := Seal(j);
    SealWellFormed(j);
    CombineSpec(j.session.value.base, raw);
    SealContributes(j.session.value.base, j.committed, raw, s.segments);
    SealBacked(j, s.panel, s.segments, raw);
    hide WellFormed, Canonical, Index, Combine, Backed;
    SaveKeeps(s, k, s.segments + [Segment(raw, true)], w);
  }

  lemma StartKeeps(s: Good, w: Write)
    requires s.node.None?
    ensures Inv(Start(s, w).after)
  {
    if ValidScope(s.scope) && ValidHex(s.epoch, 16) {
      FreshWellFormed(s.scope, s.epoch);
      assert Index([]) == map[];
      if s.disk.Some? { WellFormedReopens(s.disk.value); }
    }
  }

  lemma SettledKeeps(s: Good, b: Batch)
    ensures Inv(s.(panel := Settle(s.panel, b)))
  {
    hide WellFormed, SegmentInv, LogInv, Traced;
    if s.disk.Some? { SettleKeeps(s.disk.value, s.panel, b); } else { EmptySettle(s.panel, b); }
    hide Settle;
  }

  lemma EmptySettle(p: Panel, b: Batch)
    requires p == Panel([], {}, {})
    ensures Settle(p, b) == p
  {
  }

  lemma CrashKeeps(s: Good)
    ensures Inv(s.(node := None))
  {
    hide WellFormed, Backed;
  }

  lemma StepKeeps(s: Good, step: Step)
    requires Timely(s, step)
    ensures Inv(Next(s, step))
  {
    hide Inv, Start, Deliver, Stage, Probe, Hold, Prove, Begin, SealUp, Settle, Proving, Sealing, ValidRowsOf;
    match step
    case DoSettle(b) => SettledKeeps(s, b);
    case DoCrash => CrashKeeps(s);
    case DoStart(w) => if s.node.None? { StartKeeps(s, w); }
    case DoDeliver(reply, w) => if s.node.Some? { DeliverKeeps(s, reply, w); }
    case DoStage(totals, w) => if Idle(s) && !IsSealed(s.node.value.state) { StageKeeps(s, totals, w); }
    case DoProbe(r, w) => if s.node.Some? { ProbeKeeps(s, r, w); }
    case DoHold(r, w) => if s.node.Some? { HoldKeeps(s, r, w); }
    case DoProve(via, r, final, receipt, w) => if Proving(s, via, r, final, receipt) { ProveKeeps(s, via, r, final, receipt, w); }
    case DoBegin(process, unclean, now, w) => if s.node.Some? { BeginKeeps(s, process, unclean, now, w); }
    case DoSeal(process, raw, w) => if Sealing(s, process, raw) { SealKeeps(s, process, raw, w); }
  }

  lemma {:induction false} RunKeeps(s: Good, steps: seq<Step>)
    requires ClockSet(s, steps)
    ensures Inv(Run(s, steps))
    decreases |steps|
  {
    if steps != [] {
      StepKeeps(s, steps[0]);
      RunKeeps(Next(s, steps[0]), steps[1..]);
    }
  }

  lemma {:induction false} RunAppend(s: Sys, a: seq<Step>, b: seq<Step>)
    ensures Run(s, a + b) == Run(Run(s, a), b)
    decreases |a|
  {
    if a == [] {
      assert a + b == b;
    } else {
      RunAppend(Next(s, a[0]), a[1..], b);
      assert (a + b)[0] == a[0] && (a + b)[1..] == a[1..] + b;
    }
  }

  lemma {:induction false} ClockAppend(s: Sys, a: seq<Step>, b: seq<Step>)
    ensures ClockSet(s, a + b) <==> ClockSet(s, a) && ClockSet(Run(s, a), b)
    decreases |a|
  {
    hide Next, Timely;
    if a == [] {
      assert a + b == b;
    } else {
      ClockAppend(Next(s, a[0]), a[1..], b);
      assert (a + b)[0] == a[0] && (a + b)[1..] == a[1..] + b;
    }
  }

  // ---- theorems about every run -----------------------------------------------------

  ghost predicate Reached(s: Sys, scope: string, epoch: string, steps: seq<Step>) {
    ClockSet(Boot(scope, epoch), steps) && s == Run(Boot(scope, epoch), steps)
  }

  lemma ReachedGood(s: Sys, scope: string, epoch: string, steps: seq<Step>)
    requires Reached(s, scope, epoch, steps)
    ensures Inv(s) && s.scope == scope && s.epoch == epoch
  {
    RunKeeps(Boot(scope, epoch), steps);
    SameStream(Boot(scope, epoch), steps);
  }

  lemma StepSameStream(s: Sys, step: Step)
    ensures Next(s, step).scope == s.scope && Next(s, step).epoch == s.epoch
  {
    hide Staged, Begun, Reopen, CanReserve, Abandoned, Provable, Combine, Canonical, Commit, Held, Proven, Advance, Fresh, Settle;
  }

  lemma {:induction false} SameStream(s: Sys, steps: seq<Step>)
    ensures Run(s, steps).scope == s.scope && Run(s, steps).epoch == s.epoch
    decreases |steps|
  {
    if steps != [] {
      StepSameStream(s, steps[0]);
      hide Next;
      SameStream(Next(s, steps[0]), steps[1..]);
    }
  }

  /** The journal that the whole log matches. */
  ghost function Settled(j: Journal, log: seq<Batch>): Journal { if Ahead(j, log) then Advance(j) else j }

  lemma WholeLog(s: Good)
    requires s.disk.Some?
    ensures var k := Settled(s.disk.value, s.panel.log);
            && (forall id :: Booked(s.panel.log, id) == At(Index(k.committed), id))
            && (forall uid :: Ledger(s.panel.log, uid) == OwnerSum(k.committed, uid))
  {
    var j, log := s.disk.value, s.panel.log;
    if Ahead(j, log) {
      PendingFacts(j);
      AdvanceBooks(j, log);
    }
    LogMatches(Settled(j, log), log);
  }

  lemma LogMatches(k: Journal, log: seq<Batch>)
    requires LogInv(k, log) && |log| == k.next - 1
    ensures forall id :: Booked(log, id) == At(Index(k.committed), id)
    ensures forall uid :: Ledger(log, uid) == OwnerSum(k.committed, uid)
  {
    hide Index, At, Booked, Ledger, OwnerSum;
    assert log[..k.next - 1] == log;
  }

  /** Exactly-once billing: over every run of flushes, replays, lost and deferred
      replies, uncertain writes, crashes and reopenings the panel has booked, per
      identity, the journal's `Committed`, or its `Through` when the pending batch
      has already landed, and no sequence number twice. */
  lemma ExactlyOnce(s: Sys, scope: string, epoch: string, steps: seq<Step>)
    requires Reached(s, scope, epoch, steps) && s.disk.Some?
    ensures var j, log := s.disk.value, s.panel.log;
            && (|log| == j.next - 1 || Ahead(j, log))
            && (forall id :: Booked(log, id) == At(Index(if Ahead(j, log) then j.pending.value.through else j.committed), id))
            && (forall i, k :: 0 <= i < k < |log| ==> !SameSlot(log[i], log[k]))
  {
    ReachedGood(s, scope, epoch, steps);
    WholeLog(s);
    hide WellFormed, Index, At, Booked, Ledger, OwnerSum;
  }

  /** The owner ledger: what all booked batches report for an owner is what the
      credentials of that owner have committed (or will have, once ahead). */
  lemma OwnerLedger(s: Sys, scope: string, epoch: string, steps: seq<Step>, uid: int)
    requires Reached(s, scope, epoch, steps) && s.disk.Some?
    ensures var j, log := s.disk.value, s.panel.log;
            Ledger(log, uid) == OwnerSum(if Ahead(j, log) then j.pending.value.through else j.committed, uid)
  {
    ReachedGood(s, scope, epoch, steps);
    WholeLog(s);
  }

  // ---- what is sent -------------------------------------------------------------------

  /** Sorted valid rows under a valid address, sealed with the digest of its own text. */
  ghost predicate Proper(b: Batch) { ValidBatch(b) && Canonical(b.entries) }

  ghost predicate ProperLog(log: seq<Batch>) { forall i :: 0 <= i < |log| ==> Proper(log[i]) }

  lemma PendingProper(j: Sound)
    requires j.pending.Some?
    ensures Proper(j.pending.value.batch)
  {
    DeltaSpec(j.committed, j.pending.value.through);
    hide Canonical, Delta, Index;
  }

  lemma LandProper(log: seq<Batch>, b: Batch)
    requires ProperLog(log) && Proper(b)
    ensures ProperLog(Land(log, b))
  {
    hide Proper, Occupied;
  }

  lemma SettleProper(s: Good, b: Batch)
    requires s.disk.Some? && ProperLog(s.panel.log)
    ensures ProperLog(Settle(s.panel, b).log)
  {
    var j, log := s.disk.value, s.panel.log;
    if j.pending.Some? { PendingProper(j); }
    hide WellFormed, LogInv, SegmentInv, Proper;
    if b in s.panel.queue {
      if b in log {
        var i :| 0 <= i < |log| && log[i] == b;
        assert Proper(log[i]);
      }
      LandProper(log, b);
    }
  }

  lemma CommitLog(p: Panel, b: Batch, reply: Reply)
    ensures Commit(p, b, reply).after.log == p.log || Commit(p, b, reply).after.log == Land(p.log, b)
  {
  }

  lemma DeliverPanel(s: Sys, reply: Reply, w: Write)
    requires s.node.Some?
    ensures var n := s.node.value;
            Deliver(s, reply, w).after.panel == if !n.poisoned && n.state.pending.Some? then Commit(s.panel, n.state.pending.value.batch, reply).after else s.panel
  {
    hide Commit, Advance;
  }

  lemma DeliverProper(s: Good, reply: Reply, w: Write)
    requires s.node.Some? && ProperLog(s.panel.log)
    ensures ProperLog(Deliver(s, reply, w).after.panel.log)
  {
    DeliverPanel(s, reply, w);
    var n := s.node.value;
    if !n.poisoned && n.state.pending.Some? {
      var b := n.state.pending.value.batch;
      CommitLog(s.panel, b, reply);
      assert s.disk == Some(n.state) by { hide WellFormed, Backed; }
      PendingProper(s.disk.value);
      hide Inv, Proper, ProperLog, Land, Commit, Deliver;
      LandProper(s.panel.log, b);
    } else {
      hide Deliver;
    }
  }

  lemma SamePanel(s: Sys, step: Step)
    requires !step.DoDeliver? && !step.DoSettle?
    ensures Next(s, step).panel == s.panel
  {
    hide Staged, Begun, Reopen, CanReserve, Abandoned, Provable, Combine, Canonical, Held, Proven, Fresh;
  }

  lemma StepProper(s: Good, step: Step)
    requires ProperLog(s.panel.log)
    ensures ProperLog(Next(s, step).panel.log)
  {
    if step.DoDeliver? {
      hide Inv, ProperLog, Deliver;
      if s.node.Some? { DeliverProper(s, step.reply, step.w); }
    } else if step.DoSettle? {
      if s.disk.Some? { SettleProper(s, step.batch); } else { EmptySettle(s.panel, step.batch); }
    } else {
      SamePanel(s, step);
    }
  }

  lemma {:induction false} RunProper(s: Good, steps: seq<Step>)
    requires ClockSet(s, steps) && ProperLog(s.panel.log)
    ensures ProperLog(Run(s, steps).panel.log)
    decreases |steps|
  {
    if steps != [] {
      StepKeeps(s, steps[0]);
      StepProper(s, steps[0]);
      hide Next, Inv, ProperLog;
      RunProper(Next(s, steps[0]), steps[1..]);
    }
  }

  /** The batch is waiting, has been handed to the panel, or has been booked. */
  ghost predicate Issued(s: Sys, b: Batch) {
    b in s.panel.sent || b in s.panel.queue || b in s.panel.log || (s.disk.Some? && s.disk.value.pending.Some? && s.disk.value.pending.value.batch == b)
  }

  /** Every batch that any run ever persists, sends or has booked is addressed to the
      stream, has sorted valid rows and carries the digest of its own text. */
  lemma IssuedProper(s: Sys, scope: string, epoch: string, steps: seq<Step>, b: Batch)
    requires Reached(s, scope, epoch, steps) && Issued(s, b)
    ensures ValidBatch(b) && Samples(b.entries) == Ok(b.entries) && b.scope == scope && b.epoch == epoch
  {
    ReachedGood(s, scope, epoch, steps);
    RunProper(Boot(scope, epoch), steps);
    var log := s.panel.log;
    if s.disk.Some? && s.disk.value.pending.Some? {
      PendingProper(s.disk.value);
      PendingFacts(s.disk.value);
    }
    assert Proper(b) && b.scope == scope && b.epoch == epoch by {
      hide WellFormed, SegmentInv, Proper, Booked, Ledger, Index, At, OwnerSum;
      if b in log {
        var i :| 0 <= i < |log| && log[i] == b;
        assert Proper(log[i]);
      }
    }
    SamplesOfCanonical(b.entries);
  }

  /** ... so that a digest, and an acknowledgement, names one of them only. */
  lemma OneBatchPerDigest(s: Sys, scope: string, epoch: string, steps: seq<Step>, b: Batch, c: Batch)
    requires Reached(s, scope, epoch, steps) && Issued(s, b) && Issued(s, c)
    ensures b.digest == c.digest ==> b == c
    ensures AckFor(b) == AckFor(c) <==> b == c
  {
    IssuedProper(s, scope, epoch, steps, b);
    IssuedProper(s, scope, epoch, steps, c);
    SamplesCanonical(b.entries);
    SamplesCanonical(c.entries);
    hide Reached, Issued, Samples;
    AckNamesBatch(b, c);
  }

  /** Two different batches are never sent under one sequence number. */
  lemma OneBatchPerSequence(s: Sys, scope: string, epoch: string, steps: seq<Step>, b: Batch, c: Batch)
    requires Reached(s, scope, epoch, steps) && b in s.panel.sent && c in s.panel.sent && SameSlot(b, c)
    ensures b == c
  {
    ReachedGood(s, scope, epoch, steps);
    var j, log := s.disk.value, s.panel.log;
    if j.pending.Some? { PendingFacts(j); }
    hide WellFormed, Index, At, Booked;
    if b in log {
      var i :| 0 <= i < |log| && log[i] == b;
      if c in log {
        var k :| 0 <= k < |log| && log[k] == c;
        assert i == k;
      }
    }
  }

  /** Journal closure: whatever is on disk after any run passes every check of
      `Open` and reopens to the same state; a node that is not poisoned holds it. */
  lemma JournalClosure(s: Sys, scope: string, epoch: string, steps: seq<Step>)
    requires Reached(s, scope, epoch, steps) && s.disk.Some?
    ensures Reopen(s.disk.value, scope, epoch) == Ok(s.disk.value) && WellFormed(s.disk.value)
    ensures s.node.Some? && !s.node.value.poisoned ==> s.node.value.state == s.disk.value
  {
    ReachedGood(s, scope, epoch, steps);
    WellFormedReopens(s.disk.value);
  }

  // ---- what later states keep ---------------------------------------------------------

  predicate Promised(j: Journal, r: DrainRequest) {
    (r.id in j.drains && j.drains[r.id].request == r) || (r.id in j.reservations && j.reservations[r.id] == r)
  }

  predicate IsProved(j: Journal, id: string) { id in j.drains && j.drains[id].proof.Some? }

  predicate Uncertain(j: Journal) { j.session.Some? && j.session.value.recovery.Some? }

  /** Promises, holds, proofs and the uncertainty mark of `j` are still there in `k`. */
  ghost predicate Onward(j: Journal, k: Journal) {
    && (forall r :: Promised(j, r) ==> Promised(k, r))
    && (forall id :: id in j.drains ==> id in k.drains && k.drains[id].request == j.drains[id].request)
    && (forall id :: IsProved(j, id) ==> IsProved(k, id) && k.drains[id] == j.drains[id])
    && (Uncertain(j) ==> Uncertain(k))
  }

  lemma OnwardTransitive(j: Journal, k: Journal, l: Journal)
    requires Onward(j, k) && Onward(k, l)
    ensures Onward(j, l)
  {
  }

  lemma SaveOnward(s: Good, j: Journal, segments: seq<Segment>, w: Write)
    requires s.node.Some? && (!s.node.value.poisoned ==> Onward(s.disk.value, j))
    ensures Save(s, j, segments, w).after.disk.Some? && Onward(s.disk.value, Save(s, j, segments, w).after.disk.value)
  {
    hide WellFormed, Backed;
  }

  ghost predicate Keeping(s: Sys, t: Sys) { s.disk.Some? ==> t.disk.Some? && Onward(s.disk.value, t.disk.value) }

  lemma KeepingDisk(s: Sys, t: Sys)
    requires t.disk == s.disk
    ensures Keeping(s, t)
  {
  }

  /** The panel, a crash and reopening change nothing on disk. */
  lemma OutsideDisk(s: Good, step: Step)
    requires s.disk.Some? && (step.DoSettle? || step.DoCrash? || step.DoStart?)
    ensures Next(s, step).disk == s.disk
  {
    hide Inv, Settle, Reopen;
  }

  lemma StepOnward(s: Good, step: Step)
    requires s.disk.Some? && Timely(s, step)
    ensures Keeping(s, Next(s, step))
  {
    hide Inv, Keeping, Start, Deliver, Stage, Probe, Hold, Prove, Begin, SealUp, Settle, Proving, Sealing, ValidRowsOf, Timely;
    KeepingDisk(s, s);
    match step
    case DoSettle(_) => OutsideDisk(s, step); KeepingDisk(s, Next(s, step));
    case DoCrash => OutsideDisk(s, step); KeepingDisk(s, Next(s, step));
    case DoStart(_) => OutsideDisk(s, step); KeepingDisk(s, Next(s, step));
    case DoDeliver(reply, w) => if s.node.Some? { DeliverOnward(s, reply, w); }
    case DoStage(totals, w) => if Idle(s) && !IsSealed(s.node.value.state) { StageOnward(s, totals, w); }
    case DoProbe(r, w) => if s.node.Some? { ProbeOnward(s, r, w); }
    case DoHold(r, w) => if s.node.Some? { HoldOnward(s, r, w); }
    case DoProve(via, r, final, receipt, w) => if Proving(s, via, r, final, receipt) { ProveOnward(s, via, r, final, receipt, w); }
    case DoBegin(process, unclean, now, w) => if s.node.Some? { BeginOnward(s, process, unclean, now, w); }
    case DoSeal(process, raw, w) => if Sealing(s, process, raw) { SealOnward(s, process, raw, w); }
  }

  lemma ProveOnward(s: Good, via: Via, r: DrainRequest, final: Sample, receipt: Ack, w: Write)
    requires Proving(s, via, r, final, receipt)
    ensures Keeping(s, Prove(s, r, final, receipt, w).after)
  {
    hide WellFormed, Backed, Holds;
    SaveOnward(s, Proven(s.disk.value, r, final, receipt), s.segments, w);
  }

  lemma SealOnward(s: Good, process: string, raw: seq<Sample>, w: Write)
    requires Sealing(s, process, raw)
    ensures Keeping(s, SealUp(s, raw, w).after)
  {
    hide WellFormed, Backed, Combine, Canonical;
    SaveOnward(s, Seal(s.disk.value), s.segments + [Segment(raw, true)], w);
  }

  lemma DeliverOnward(s: Good, reply: Reply, w: Write)
    requires s.node.Some?
    ensures Keeping(s, Deliver(s, reply, w).after)
  {
    hide WellFormed, Backed, Commit;
  }

  lemma StageOnward(s: Good, totals: seq<Sample>, w: Write)
    requires Idle(s) && !IsSealed(s.node.value.state)
    ensures Keeping(s, Stage(s, totals, w).after)
  {
    hide WellFormed, Backed, Staged, Onward;
    if Staged(s.disk.value, totals).Ok? {
      StagedOnward(s.disk.value, totals);
      SaveOnward(s, Staged(s.disk.value, totals).value, s.segments, w);
    } else {
      OnwardSame(s.disk.value);
    }
  }

  lemma OnwardSame(j: Journal)
    ensures Onward(j, j)
  {
  }

  lemma StagedOnward(j: Journal, totals: seq<Sample>)
    requires ValidRows(j.committed) && Staged(j, totals).Ok?
    ensures Onward(j, Staged(j, totals).value)
  {
    hide Samples, Delta, ContainsFinal, BatchOf;
  }

  lemma ProbeOnward(s: Good, r: DrainRequest, w: Write)
    requires s.node.Some?
    ensures Keeping(s, Probe(s, r, w).after)
  {
    hide WellFormed, Backed;
    var j := s.disk.value;
    if !s.node.value.poisoned && CanReserve(j, r) {
      SaveOnward(s, Reserve(j, r), s.segments, w);
    }
  }

  lemma HoldOnward(s: Good, r: DrainRequest, w: Write)
    requires s.node.Some?
    ensures Keeping(s, Hold(s, r, w).after)
  {
    hide WellFormed, Backed;
    var j := s.disk.value;
    if !s.node.value.poisoned && r.id !in j.drains && CanReserve(j, r) {
      HeldOnward(j, r);
      SaveOnward(s, Held(j, r), s.segments, w);
    }
  }

  lemma HeldPromises(j: Journal, r: DrainRequest, x: DrainRequest)
    requires r.id !in j.drains && CanReserve(j, r) && Promised(j, x)
    ensures Promised(Held(j, r), x)
  {
    hide ValidRequest;
  }

  lemma HeldOnward(j: Journal, r: DrainRequest)
    requires r.id !in j.drains && CanReserve(j, r)
    ensures Onward(j, Held(j, r))
  {
    hide CanReserve, Promised;
    forall x | Promised(j, x) ensures Promised(Held(j, r), x) { HeldPromises(j, r, x); }
  }

  lemma BeginOnward(s: Good, process: string, unclean: bool, now: int, w: Write)
    requires s.node.Some?
    ensures Keeping(s, Begin(s, process, unclean, now, w).after)
  {
    hide WellFormed, Backed, Abandoned;
  }

  lemma {:induction false} RunOnward(s: Good, steps: seq<Step>)
    requires s.disk.Some? && ClockSet(s, steps)
    ensures Run(s, steps).disk.Some? && Onward(s.disk.value, Run(s, steps).disk.value)
    decreases |steps|
  {
    hide WellFormed, Backed;
    if steps != [] {
      var s' := Next(s, steps[0]);
      StepKeeps(s, steps[0]);
      StepOnward(s, steps[0]);
      RunOnward(s', steps[1..]);
      OnwardTransitive(s.disk.value, s'.disk.value, Run(s, steps).disk.value);
    }
  }

  /** Two points of one run. */
  lemma Later(s: Sys, t: Sys, scope: string, epoch: string, steps: seq<Step>, more: seq<Step>)
    requires Reached(s, scope, epoch, steps) && s.disk.Some? && Reached(t, scope, epoch, steps + more)
    ensures Inv(s) && Inv(t) && t.disk.Some? && Onward(s.disk.value, t.disk.value)
  {
    ReachedGood(s, scope, epoch, steps);
    ReachedGood(t, scope, epoch, steps + more);
    RunAppend(Boot(scope, epoch), steps, more);
    ClockAppend(Boot(scope, epoch), steps, more);
    RunOnward(s, more);
  }

  lemma FinalIsBooked(s: Good, id: string)
    requires s.disk.Some? && IsProved(s.disk.value, id)
    ensures var j := s.disk.value;
            var final := j.drains[id].proof.value.final;
            && final.Id() == j.drains[id].request.identity && Holds(j.committed, final)
            && (j.pending.Some? ==> Holds(j.pending.value.through, final))
            && Booked(s.panel.log, final.Id()) == final.Used()
  {
    var j, log := s.disk.value, s.panel.log;
    var final := j.drains[id].proof.value.final;
    assert DrainOk(id, j.drains[id], j);
    assert Holds(j.committed, final);
    WholeLog(s);
    hide WellFormed, Index;
  }

  /** Drain finality: a proof names everything the panel has booked for its
      identity, and in every later state the proof, the committed row, the row of
      anything pending and the panel's total are still exactly that. */
  lemma DrainFinality(s: Sys, t: Sys, scope: string, epoch: string, steps: seq<Step>, more: seq<Step>, id: string)
    requires Reached(s, scope, epoch, steps) && s.disk.Some? && IsProved(s.disk.value, id)
    requires Reached(t, scope, epoch, steps + more)
    ensures var final := s.disk.value.drains[id].proof.value.final;
            && Booked(s.panel.log, final.Id()) == final.Used() && final.Id() == s.disk.value.drains[id].request.identity
            && t.disk.Some? && IsProved(t.disk.value, id) && t.disk.value.drains[id] == s.disk.value.drains[id]
            && Holds(t.disk.value.committed, final) && (t.disk.value.pending.Some? ==> Holds(t.disk.value.pending.value.through, final))
            && Booked(t.panel.log, final.Id()) == final.Used()
  {
    Later(s, t, scope, epoch, steps, more);
    FinalIsBooked(s, id);
    FinalIsBooked(t, id);
  }

  lemma PromiseHonoured(j: Sound, r: DrainRequest)
    requires Promised(j, r)
    ensures CanReserve(j, r)
  {
    if r.id in j.drains { assert DrainOk(r.id, j.drains[r.id], j); }
  }

  /** Reservation promise: a promised request, and one is promised by every
      successful probe, is never refused later; promises stay within 1000. */
  lemma ReservationPromise(s: Sys, t: Sys, scope: string, epoch: string, steps: seq<Step>, more: seq<Step>, r: DrainRequest)
    requires Reached(s, scope, epoch, steps) && s.disk.Some? && Promised(s.disk.value, r)
    requires Reached(t, scope, epoch, steps + more)
    ensures t.disk.Some? && Promised(t.disk.value, r) && CanReserve(t.disk.value, r) && ReservationsOk(t.disk.value)
    ensures t.node.Some? && !t.node.value.poisoned ==> CanReserve(t.node.value.state, r)
  {
    Later(s, t, scope, epoch, steps, more);
    PromiseHonoured(t.disk.value, r);
  }

  lemma ProbePromises(s: Good, r: DrainRequest, w: Write)
    requires s.node.Some? && Probe(s, r, w).result.Ok?
    ensures Probe(s, r, w).after.disk.Some? && Promised(Probe(s, r, w).after.disk.value, r)
  {
    hide WellFormed, Backed;
  }

  /** A drain is handed the counter session that the process holds, if the journal has
      one. */
  predicate ThroughLive(s: Sys, step: Step) {
    step.DoProve? && s.node.Some? && s.node.value.state.session.Some? ==> s.node.value.live.Some? && step.via == Through(s.node.value.live.value)
  }

  ghost predicate LiveOnly(s: Sys, steps: seq<Step>)
    decreases |steps|
  {
    steps == [] || (ThroughLive(s, steps[0]) && LiveOnly(Next(s, steps[0]), steps[1..]))
  }

  ghost predicate NoNewProof(j: Journal, k: Journal) { forall id :: IsProved(k, id) ==> IsProved(j, id) }

  ghost predicate NoneProved(s: Sys, t: Sys) { s.disk.Some? ==> t.disk.Some? && NoNewProof(s.disk.value, t.disk.value) }

  lemma NoneProvedBy(s: Sys, t: Sys)
    requires t.disk == s.disk
    ensures NoneProved(s, t)
  {
  }

  lemma SaveProves(s: Good, j: Journal, segments: seq<Segment>, w: Write)
    requires s.node.Some? && (!s.node.value.poisoned ==> NoNewProof(s.disk.value, j))
    ensures Save(s, j, segments, w).after.disk.Some? && NoNewProof(s.disk.value, Save(s, j, segments, w).after.disk.value)
  {
    hide WellFormed, Backed;
  }

  lemma StagedDrains(j: Journal, totals: seq<Sample>)
    requires ValidRows(j.committed) && Staged(j, totals).Ok?
    ensures NoNewProof(j, Staged(j, totals).value)
  {
    hide Samples, Delta, ContainsFinal, BatchOf;
  }

  lemma StageProves(s: Good, totals: seq<Sample>, w: Write)
    requires Idle(s) && !IsSealed(s.node.value.state)
    ensures NoneProved(s, Stage(s, totals, w).after)
  {
    hide WellFormed, Backed, Staged, NoNewProof;
    if Staged(s.disk.value, totals).Ok? {
      StagedDrains(s.disk.value, totals);
      SaveProves(s, Staged(s.disk.value, totals).value, s.segments, w);
    } else {
      NoneProvedBy(s, s);
    }
  }

  lemma DeliverProves(s: Good, reply: Reply, w: Write)
    requires s.node.Some?
    ensures NoneProved(s, Deliver(s, reply, w).after)
  {
    hide WellFormed, Backed, Commit;
  }

  lemma HoldProves(s: Good, r: DrainRequest, w: Write)
    requires s.node.Some?
    ensures NoneProved(s, Hold(s, r, w).after)
  {
    hide WellFormed, Backed, CanReserve;
  }

  lemma BeginProves(s: Good, process: string, unclean: bool, now: int, w: Write)
    requires s.node.Some?
    ensures NoneProved(s, Begin(s, process, unclean, now, w).after)
  {
    hide WellFormed, Backed, Abandoned;
  }

  lemma ProbeProves(s: Good, r: DrainRequest, w: Write)
    requires s.node.Some?
    ensures NoneProved(s, Probe(s, r, w).after)
  {
    hide WellFormed, Backed, CanReserve;
  }

  lemma SealProves(s: Good, process: string, raw: seq<Sample>, w: Write)
    requires Sealing(s, process, raw)
    ensures NoneProved(s, SealUp(s, raw, w).after)
  {
    hide WellFormed, Backed, Combine, Canonical;
    SaveProves(s, Seal(s.disk.value), s.segments + [Segment(raw, true)], w);
  }

  lemma NotThroughLive(s: Good, step: Step)
    requires s.disk.Some? && Uncertain(s.disk.value) && step.DoProve? && ThroughLive(s, step)
    ensures !Proving(s, step.via, step.request, step.final, step.receipt)
  {
    hide WellFormed, Backed, Provable;
  }

  /** Under the mark of an unclean resume only a proof through another adapter adds to
      the proved drains. */
  lemma StepProves(s: Good, step: Step)
    requires s.disk.Some? && Uncertain(s.disk.value) && Timely(s, step) && ThroughLive(s, step)
    ensures NoneProved(s, Next(s, step))
  {
    hide Inv, NoneProved, Uncertain, Start, Deliver, Stage, Probe, Hold, Prove, Begin, SealUp, Settle, Proving, Sealing, ValidRowsOf, ThroughLive, Timely;
    NoneProvedBy(s, s);
    match step
    case DoSettle(_) => OutsideDisk(s, step); NoneProvedBy(s, Next(s, step));
    case DoCrash => OutsideDisk(s, step); NoneProvedBy(s, Next(s, step));
    case DoStart(_) => OutsideDisk(s, step); NoneProvedBy(s, Next(s, step));
    case DoDeliver(reply, w) => if s.node.Some? { DeliverProves(s, reply, w); }
    case DoStage(totals, w) => if Idle(s) && !IsSealed(s.node.value.state) { StageProves(s, totals, w); }
    case DoProbe(r, w) => if s.node.Some? { ProbeProves(s, r, w); }
    case DoHold(r, w) => if s.node.Some? { HoldProves(s, r, w); }
    case DoProve(_, _, _, _, _) => NotThroughLive(s, step);
    case DoBegin(process, unclean, now, w) => if s.node.Some? { BeginProves(s, process, unclean, now, w); }
    case DoSeal(process, raw, w) => if Sealing(s, process, raw) { SealProves(s, process, raw, w); }
  }

  lemma {:induction false} RunProves(s: Good, steps: seq<Step>)
    requires s.disk.Some? && Uncertain(s.disk.value) && ClockSet(s, steps) && LiveOnly(s, steps)
    ensures NoneProved(s, Run(s, steps))
    decreases |steps|
  {
    if steps != [] {
      StepKeeps(s, steps[0]);
      StepOnward(s, steps[0]);
      StepProves(s, steps[0]);
      hide Next, Inv, IsProved;
      RunProves(Next(s, steps[0]), steps[1..]);
    }
  }

  /** Uncertainty is never laundered: once an epoch has been resumed uncleanly, every
      later session carries the mark, and as long as drains are handed the session the
      process holds, no further drain is proved. */
  lemma UncertaintyStays(s: Sys, t: Sys, scope: string, epoch: string, steps: seq<Step>, more: seq<Step>)
    requires Reached(s, scope, epoch, steps) && s.disk.Some? && Uncertain(s.disk.value)
    requires Reached(t, scope, epoch, steps + more)
    ensures t.disk.Some? && Uncertain(t.disk.value)
    ensures LiveOnly(s, more) ==> forall id :: IsProved(t.disk.value, id) <==> IsProved(s.disk.value, id)
    ensures t.node.Some? && !t.node.value.poisoned && t.node.value.live.Some? ==> t.node.value.live.value.uncertain
  {
    Later(s, t, scope, epoch, steps, more);
    RunAppend(Boot(scope, epoch), steps, more);
    ClockAppend(Boot(scope, epoch), steps, more);
    if LiveOnly(s, more) { RunProves(s, more); }
    hide WellFormed, Backed, Run;
  }

  /** `Drain` accepts any other adapter, and through one the mark does not count: with
      the adapter below the session, or an older certain session, every drain that is
      otherwise ready is proved. */
  lemma OtherAdapterProves(s: Good, via: Via, r: DrainRequest, final: Sample, receipt: Ack)
    requires s.node.Some? && !s.node.value.poisoned && Uncertain(s.node.value.state) && Provable(s.node.value.state, r, final, receipt)
    ensures var t := Next(s, DoProve(via, r, final, receipt, Saved));
            t.disk.Some? && (IsProved(t.disk.value, r.id) <==> via.Bare? || !via.session.uncertain)
  {
    hide WellFormed, Backed;
  }

  lemma RestartAct(s: Good)
    requires s.node.Some? && s.disk.Some?
    ensures Next(Next(s, DoCrash), DoStart(Saved)) == s.(node := Some(Node(s.disk.value, false, None)))
  {
    WellFormedReopens(s.disk.value);
    assert ValidScope(s.scope) && ValidHex(s.epoch, 16);
    hide Reopen, WellFormed, Backed, ValidHex;
  }

  lemma ResumeAct(s: Sys, process: string, now: int)
    requires s.node.Some? && !s.node.value.poisoned && Begun(s.node.value.state, process, true, now).Ok?
    ensures var k, t := Begun(s.node.value.state, process, true, now).value, Next(s, DoBegin(process, true, now, Saved));
            && t.disk == Some(k) && t.node == Some(Node(k, false, Some(Live(process, k.session.value.base, k.session.value.recovery.Some?)))) && t.panel == s.panel
  {
    hide Begun, Abandoned;
  }

  lemma ResumedJournal(j: Journal, process: string, now: int)
    requires ValidHex(process, 16) && j.session.Some? && !j.session.value.isSealed && j.session.value.process != process
    requires j.pending.None? && j.session.value.recovery.None?
    ensures var k := Begun(j, process, true, now); k.Ok? && k.value == j.(session := k.value.session) && Uncertain(k.value)
  {
    hide ValidHex;
  }

  lemma RunFour(s: Sys, a: Step, b: Step, c: Step, d: Step)
    ensures Run(s, [a, b, c, d]) == Next(Next(Next(Next(s, a), b), c), d)
  {
    hide Next;
    assert [a, b, c, d][1..] == [b, c, d] && [b, c, d][1..] == [c, d] && [c, d][1..] == [d] && [d][1..] == [];
    assert Run(s, [a, b, c, d]) == Run(Next(s, a), [b, c, d]) == Run(Next(Next(s, a), b), [c, d]) == Run(Next(Next(Next(s, a), b), c), [d]);
    assert Run(Next(Next(Next(Next(s, a), b), c), d), []) == Next(Next(Next(Next(s, a), b), c), d);
  }

  /** The run in which it does not: a drain that is ready when the process dies is proved
      through the adapter itself after the unclean resume, in an epoch marked uncertain. */
  lemma ResumedDrainProved(s: Good, process: string, now: int, r: DrainRequest, final: Sample, receipt: Ack)
    requires s.node.Some? && !s.node.value.poisoned && Provable(s.node.value.state, r, final, receipt) && ValidHex(process, 16) && now > 0
    requires var j := s.node.value.state;
             j.session.Some? && !j.session.value.isSealed && j.session.value.process != process && j.session.value.recovery.None?
    ensures var t := Run(s, [DoCrash, DoStart(Saved), DoBegin(process, true, now, Saved), DoProve(Bare, r, final, receipt, Saved)]);
            && t.disk.Some? && Uncertain(t.disk.value) && IsProved(t.disk.value, r.id)
            && t.node.Some? && t.node.value.live.Some? && t.node.value.live.value.uncertain
  {
    var j := s.node.value.state;
    assert s.disk == Some(j) by { hide WellFormed, Backed, Provable, ValidHex; }
    assert !IsProved(j, r.id);
    RestartAct(s);
    ResumedJournal(j, process, now);
    var s2 := Next(Next(s, DoCrash), DoStart(Saved));
    ResumeAct(s2, process, now);
    var k := Begun(j, process, true, now).value;
    RunFour(s, DoCrash, DoStart(Saved), DoBegin(process, true, now, Saved), DoProve(Bare, r, final, receipt, Saved));
    hide Run, Inv, Begun, ValidHex, Holds;
    var s3 := Next(s2, DoBegin(process, true, now, Saved));
    assert Provable(k, r, final, receipt);
    ProvedAct(s3, r, final, receipt);
  }

  lemma ProvedAct(s: Sys, r: DrainRequest, final: Sample, receipt: Ack)
    requires Proving(s, Bare, r, final, receipt)
    ensures var t := Next(s, DoProve(Bare, r, final, receipt, Saved));
            t.disk == Some(Proven(s.node.value.state, r, final, receipt)) && t.node == Some(s.node.value.(state := t.disk.value)) && IsProved(t.disk.value, r.id)
  {
    hide Holds;
  }

  /** Cumulative stream: whenever the session is sealed, nothing is pending and the
      panel has booked, per identity, the sum of what each process counted; if no
      process was given up uncleanly, every term is a final raw snapshot. */
  lemma CumulativeStream(s: Sys, scope: string, epoch: string, steps: seq<Step>)
    requires Reached(s, scope, epoch, steps) && s.disk.Some? && IsSealed(s.disk.value)
    ensures s.disk.value.pending.None?
    ensures forall id :: Booked(s.panel.log, id) == Contributed(s.segments, id)
    ensures !Uncertain(s.disk.value) ==> forall i :: 0 <= i < |s.segments| ==> s.segments[i].complete
  {
    ReachedGood(s, scope, epoch, steps);
    ExactlyOnce(s, scope, epoch, steps);
    hide Index, At, Booked, Contributed, Run;
  }
}
