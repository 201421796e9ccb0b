/** Acknowledgements and proofs name batches that the panel has booked
    (common/beuptransfer: outbox.go and drain.go). */
module Receipts {
  import opened Text
  import opened Counters
  import opened Journals
  import opened Delivery
  import opened Settlement

  /** The acknowledgement is that of the batch the panel has booked under its number. */
  predicate Booking(a: Ack, log: seq<Batch>) { 1 <= a.sequence <= |log| && a == AckFor(log[a.sequence - 1]) }

  ghost predicate Receipted(j: Journal, log: seq<Batch>) {
    && (j.lastAck.Some? ==> Booking(j.lastAck.value, log))
    && forall id :: IsProved(j, id) ==> Booking(j.drains[id].proof.value.receipt, log)
  }

  ghost predicate AllReceipted(s: Sys) { s.disk.Some? ==> Receipted(s.disk.value, s.panel.log) }

  lemma LogGrows(j: Journal, log: seq<Batch>, more: seq<Batch>)
    requires Receipted(j, log) && log <= more
    ensures Receipted(j, more)
  {
    assert forall i :: 0 <= i < |log| ==> more[i] == log[i];
  }

  /** Nothing is newly acknowledged or proved. */
  lemma SameReceipts(j: Journal, k: Journal, log: seq<Batch>)
    requires Receipted(j, log) && k.lastAck == j.lastAck && k.drains == j.drains
    ensures Receipted(k, log)
  {
  }

  lemma SaveReceipts(s: Good, j: Journal, segments: seq<Segment>, w: Write)
    requires s.node.Some? && AllReceipted(s) && (!s.node.value.poisoned ==> Receipted(j, s.panel.log))
    ensures AllReceipted(Save(s, j, segments, w).after)
  {
    hide Receipted;
  }

  lemma AdvanceReceipts(j: Sound, log: seq<Batch>)
    requires Receipted(j, log) && Ahead(j, log)
    ensures Receipted(Advance(j), log)
  {
    PendingFacts(j);
    hide WellFormed, Index, At, OwnerSum;
  }

  lemma CommitGrows(j: Sound, p: Panel, reply: Reply)
    requires PanelInv(j, p) && j.pending.Some?
    ensures p.log <= Commit(p, j.pending.value.batch, reply).after.log
  {
    CommitLog(p, j.pending.value.batch, reply);
    hide WellFormed, LogInv, Land, Commit;
    LandPending(j, p, j.pending.value.batch);
  }

  lemma DeliverReceipts(s: Good, reply: Reply, w: Write)
    requires s.node.Some? && AllReceipted(s)
    ensures AllReceipted(Deliver(s, reply, w).after)
  {
    hide WellFormed, PanelInv, SegmentInv, Commit, Receipted, Advance;
    var n := s.node.value;
    if !n.poisoned && n.state.pending.Some? {
      var j := s.disk.value;
      var b := j.pending.value.batch;
      var c := Commit(s.panel, b, reply);
      CommitGrows(j, s.panel, reply);
      CommitKeeps(j, s.panel, reply);
      LogGrows(j, s.panel.log, c.after.log);
      if c.result == Ok(AckFor(b)) {
        AdvanceReceipts(j, c.after.log);
        SaveReceipts(s.(panel := c.after), Advance(j), s.segments, w);
      }
    }
  }

  lemma SettleReceipts(s: Good, b: Batch)
    requires AllReceipted(s)
    ensures AllReceipted(s.(panel := Settle(s.panel, b)))
  {
    if s.disk.Some? { LogGrows(s.disk.value, s.panel.log, Settle(s.panel, b).log); }
    hide Inv, Receipted;
  }

  lemma StageReceipts(s: Good, totals: seq<Sample>, w: Write)
    requires Idle(s) && !IsSealed(s.node.value.state) && AllReceipted(s)
    ensures AllReceipted(Stage(s, totals, w).after)
  {
    hide WellFormed, Backed, Staged, Receipted;
    var j := s.disk.value;
    if Staged(j, totals).Ok? {
      StagedShape(j, totals);
      SameReceipts(j, Staged(j, totals).value, s.panel.log);
      SaveReceipts(s, Staged(j, totals).value, s.segments, w);
    }
  }

  lemma ProbeReceipts(s: Good, r: DrainRequest, w: Write)
    requires s.node.Some? && AllReceipted(s)
    ensures AllReceipted(Probe(s, r, w).after)
  {
    hide WellFormed, Backed, CanReserve, Receipted;
    if !s.node.value.poisoned {
      SameReceipts(s.disk.value, Reserve(s.disk.value, r), s.panel.log);
      SaveReceipts(s, Reserve(s.disk.value, r), s.segments, w);
    }
  }

  lemma HeldReceipts(j: Journal, r: DrainRequest, log: seq<Batch>)
    requires Receipted(j, log) && r.id !in j.drains
    ensures Receipted(Held(j, r), log)
  {
    assert forall id :: IsProved(Held(j, r), id) ==> IsProved(j, id) && Held(j, r).drains[id] == j.drains[id];
  }

  lemma HoldReceipts(s: Good, r: DrainRequest, w: Write)
    requires s.node.Some? && AllReceipted(s)
    ensures AllReceipted(Hold(s, r, w).after)
  {
    hide WellFormed, Backed, CanReserve, Receipted;
    if !s.node.value.poisoned && r.id !in s.disk.value.drains {
      HeldReceipts(s.disk.value, r, s.panel.log);
      SaveReceipts(s, Held(s.disk.value, r), s.segments, w);
    }
  }

  lemma ProveReceipts(s: Good, via: Via, r: DrainRequest, final: Sample, receipt: Ack, w: Write)
    requires Proving(s, via, r, final, receipt) && AllReceipted(s)
    ensures AllReceipted(Prove(s, r, final, receipt, w).after)
  {
    hide WellFormed, Backed, Holds;
    var j := s.disk.value;
    var k := Proven(j, r, final, receipt);
    forall id | IsProved(k, id) ensures Booking(k.drains[id].proof.value.receipt, s.panel.log) { if id != r.id { assert IsProved(j, id); } }
    SaveReceipts(s, k, s.segments, w);
  }

  lemma BeginReceipts(s: Good, process: string, unclean: bool, now: int, w: Write)
    requires s.node.Some? && AllReceipted(s)
    ensures AllReceipted(Begin(s, process, unclean, now, w).after)
  {
    hide WellFormed, Backed, Abandoned, Begun, Receipted;
    var j := s.disk.value;
    if !s.node.value.poisoned && Begun(j, process, unclean, now).Ok? {
      BegunShape(j, process, unclean, now);
      SameReceipts(j, Begun(j, process, unclean, now).value, s.panel.log);
    }
  }

  lemma SealReceipts(s: Good, process: string, raw: seq<Sample>, w: Write)
    requires Sealing(s, process, raw) && AllReceipted(s)
    ensures AllReceipted(SealUp(s, raw, w).after)
  {
    hide WellFormed, Backed, Combine, Canonical, Receipted;
    SameReceipts(s.disk.value, Seal(s.disk.value), s.panel.log);
    SaveReceipts(s, Seal(s.disk.value), s.segments + [Segment(raw, true)], w);
  }

  lemma StartReceipts(s: Good, w: Write)
    requires s.node.None? && AllReceipted(s)
    ensures AllReceipted(Start(s, w).after)
  {
    hide Reopen, WellFormed, Backed, ValidScope, ValidHex;
  }

  lemma CrashReceipts(s: Good)
    requires AllReceipted(s)
    ensures AllReceipted(s.(node := None))
  {
    hide Receipted;
  }

  /** The panel, a crash and reopening. */
  lemma OutsideReceipts(s: Good, step: Step)
    requires AllReceipted(s) && (step.DoSettle? || step.DoCrash? || step.DoStart?)
    ensures AllReceipted(Next(s, step))
  {
    hide Inv, AllReceipted, Start, Settle;
    if step.DoSettle? { SettleReceipts(s, step.batch); }
    if step.DoCrash? { CrashReceipts(s); }
    if step.DoStart? && s.node.None? { StartReceipts(s, step.w); }
  }

  lemma StepReceipts(s: Good, step: Step)
    requires AllReceipted(s)
    ensures AllReceipted(Next(s, step))
  {
    hide Inv, AllReceipted, Start, Deliver, Stage, Probe, Hold, Prove, Begin, SealUp, Settle, Proving, Sealing, ValidRowsOf;
    match step
    case DoSettle(_) => OutsideReceipts(s, step);
    case DoCrash => OutsideReceipts(s, step);
    case DoStart(_) => OutsideReceipts(s, step);
    case DoDeliver(reply, w) => if s.node.Some? { DeliverReceipts(s, reply, w); }
    case DoStage(totals, w) => if Idle(s) && !IsSealed(s.node.value.state) { StageReceipts(s, totals, w); }
    case DoProbe(r, w) => if s.node.Some? { ProbeReceipts(s, r, w); }
    case DoHold(r, w) => if s.node.Some? { HoldReceipts(s, r, w); }
    case DoProve(via, r, final, receipt, w) => if Proving(s, via, r, final, receipt) { ProveReceipts(s, via, r, final, receipt, w); }
    case DoBegin(process, unclean, now, w) => if s.node.Some? { BeginReceipts(s, process, unclean, now, w); }
    case DoSeal(process, raw, w) => if Sealing(s, process, raw) { SealReceipts(s, process, raw, w); }
  }

  lemma {:induction false} RunReceipts(s: Good, steps: seq<Step>)
    requires ClockSet(s, steps) && AllReceipted(s)
    ensures AllReceipted(Run(s, steps))
    decreases |steps|
  {
    hide Next, Inv, AllReceipted;
    if steps != [] {
      StepKeeps(s, steps[0]);
      StepReceipts(s, steps[0]);
      RunReceipts(Next(s, steps[0]), steps[1..]);
    }
  }

  /** Over every run the last acknowledgement on disk, and the receipt of every proof, is
      the acknowledgement of the very batch that the panel has booked under that number. */
  lemma ReceiptsBooked(s: Sys, scope: string, epoch: string, steps: seq<Step>)
    requires Reached(s, scope, epoch, steps)
    ensures AllReceipted(s)
  {
    RunReceipts(Boot(scope, epoch), steps);
  }
}
