/** The mark of unclean resumes as a record of the run
    (common/beuptransfer/counter_session.go). */
module Recoveries {
  import opened Text
  import opened Counters
  import opened Journals
  import opened Delivery
  import opened Settlement

  /** A process was given up, when the clock showed `now`. */
  datatype Resume = Resume(process: string, now: int)

  /** The step puts an unclean resume on disk, its save answered or not. */
  ghost function ResumeBy(s: Sys, step: Step): seq<Resume> {
    if step.DoBegin? && step.unclean && s.disk.Some? && s.disk.value.session.Some? && Next(s, step).disk != s.disk
    then [Resume(s.disk.value.session.value.process, step.now)] else []
  }

  ghost function Resumes(s: Sys, steps: seq<Step>): seq<Resume>
    decreases |steps|
  {
    if steps == [] then [] else ResumeBy(s, steps[0]) + Resumes(Next(s, steps[0]), steps[1..])
  }

  function MarkOf(disk: Option<Journal>): Option<Recovery> {
    if disk.Some? && disk.value.session.Some? then disk.value.session.value.recovery else None
  }

  /** The mark counts the resumes, dates the first and names the process last given up. */
  predicate Records(mark: Option<Recovery>, resumes: seq<Resume>) {
    if resumes == [] then mark == None
    else mark == Some(Recovery(|resumes|, resumes[0].now, resumes[|resumes| - 1].process))
  }

  lemma DeliverMark(s: Good, reply: Reply, w: Write)
    requires s.node.Some?
    ensures MarkOf(Deliver(s, reply, w).after.disk) == MarkOf(s.disk)
  {
    hide WellFormed, Backed, Commit;
  }

  lemma StageMark(s: Good, totals: seq<Sample>, w: Write)
    requires Idle(s) && !IsSealed(s.node.value.state)
    ensures MarkOf(Stage(s, totals, w).after.disk) == MarkOf(s.disk)
  {
    hide WellFormed, Backed, Staged;
    if Staged(s.disk.value, totals).Ok? { StagedShape(s.disk.value, totals); }
  }

  lemma HoldMark(s: Good, r: DrainRequest, w: Write)
    requires s.node.Some?
    ensures MarkOf(Hold(s, r, w).after.disk) == MarkOf(s.disk) && MarkOf(Probe(s, r, w).after.disk) == MarkOf(s.disk)
  {
    hide WellFormed, Backed, CanReserve;
  }

  lemma ProveMark(s: Good, via: Via, r: DrainRequest, final: Sample, receipt: Ack, w: Write)
    requires Proving(s, via, r, final, receipt)
    ensures MarkOf(Prove(s, r, final, receipt, w).after.disk) == MarkOf(s.disk)
  {
    hide WellFormed, Backed, Holds;
  }

  lemma SealMark(s: Good, process: string, raw: seq<Sample>, w: Write)
    requires Sealing(s, process, raw)
    ensures MarkOf(SealUp(s, raw, w).after.disk) == MarkOf(s.disk)
  {
    hide WellFormed, Backed, Combine, Canonical;
  }

  lemma StartMark(s: Good, w: Write)
    requires s.node.None?
    ensures MarkOf(Start(s, w).after.disk) == MarkOf(s.disk)
  {
    hide Reopen, WellFormed, Backed, ValidScope, ValidHex;
  }

  lemma OtherMark(s: Good, step: Step)
    requires !step.DoBegin?
    ensures MarkOf(Next(s, step).disk) == MarkOf(s.disk)
  {
    hide Inv, MarkOf, Start, Deliver, Stage, Probe, Hold, Prove, SealUp, Settle, Proving, Sealing, ValidRowsOf;
    match step
    case DoStart(w) => if s.node.None? { StartMark(s, w); }
    case DoDeliver(reply, w) => if s.node.Some? { DeliverMark(s, reply, w); }
    case DoStage(totals, w) => if Idle(s) && !IsSealed(s.node.value.state) { StageMark(s, totals, w); }
    case DoProbe(r, w) => if s.node.Some? { HoldMark(s, r, w); }
    case DoHold(r, w) => if s.node.Some? { HoldMark(s, r, w); }
    case DoProve(via, r, final, receipt, w) => if Proving(s, via, r, final, receipt) { ProveMark(s, via, r, final, receipt, w); }
    case DoSeal(process, raw, w) => if Sealing(s, process, raw) { SealMark(s, process, raw, w); }
    case _ =>
  }

  /** What a begin leaves on disk. */
  lemma BeginDisk(s: Good, process: string, unclean: bool, now: int, w: Write)
    requires s.node.Some?
    ensures var t := Begin(s, process, unclean, now, w).after;
            t.disk == s.disk || (s.disk.Some? && Begun(s.disk.value, process, unclean, now).Ok? && t.disk == Some(Begun(s.disk.value, process, unclean, now).value))
  {
    hide WellFormed, Backed, Abandoned, Begun;
  }

  /** A begun session is always another one. */
  lemma BegunMark(j: Journal, process: string, unclean: bool, now: int, resumes: seq<Resume>)
    requires Begun(j, process, unclean, now).Ok? && Records(MarkOf(Some(j)), resumes)
    ensures var k := Begun(j, process, unclean, now).value;
            && k != j && (unclean ==> j.session.Some?)
            && Records(MarkOf(Some(k)), if unclean then resumes + [Resume(j.session.value.process, now)] else resumes)
  {
    hide ValidHex;
  }

  lemma StepRecords(s: Good, step: Step, resumes: seq<Resume>)
    requires Records(MarkOf(s.disk), resumes)
    ensures Records(MarkOf(Next(s, step).disk), resumes + ResumeBy(s, step))
  {
    if step.DoBegin? && s.node.Some? {
      var t := Begin(s, step.process, step.unclean, step.now, step.w).after;
      assert Next(s, step) == t;
      BeginDisk(s, step.process, step.unclean, step.now, step.w);
      if t.disk != s.disk { BegunMark(s.disk.value, step.process, step.unclean, step.now, resumes); }
      hide Begin, Begun, Records, Inv;
      assert resumes + [] == resumes;
    } else {
      assert Next(s, step).disk == s.disk || !step.DoBegin?;
      if !step.DoBegin? { OtherMark(s, step); }
      hide Next, Records, Inv;
      assert resumes + [] == resumes;
    }
  }

  lemma {:induction false} RunRecords(s: Good, steps: seq<Step>, resumes: seq<Resume>)
    requires ClockSet(s, steps) && Records(MarkOf(s.disk), resumes)
    ensures Records(MarkOf(Run(s, steps).disk), resumes + Resumes(s, steps))
    decreases |steps|
  {
    hide Next, Inv, Records, ResumeBy, MarkOf;
    if steps == [] {
      assert resumes + [] == resumes;
    } else {
      StepKeeps(s, steps[0]);
      StepRecords(s, steps[0], resumes);
      RunRecords(Next(s, steps[0]), steps[1..], resumes + ResumeBy(s, steps[0]));
      assert resumes + ResumeBy(s, steps[0]) + Resumes(Next(s, steps[0]), steps[1..]) == resumes + Resumes(s, steps);
    }
  }

  /** Over every run the mark on disk is the record of all unclean resumes of the epoch:
      their number, the time of the first, and the process that was given up last. */
  lemma MarkRecords(s: Sys, scope: string, epoch: string, steps: seq<Step>)
    requires Reached(s, scope, epoch, steps)
    ensures Records(MarkOf(s.disk), Resumes(Boot(scope, epoch), steps))
  {
    RunRecords(Boot(scope, epoch), steps, []);
    assert [] + Resumes(Boot(scope, epoch), steps) == Resumes(Boot(scope, epoch), steps);
  }
}
