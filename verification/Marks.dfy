/** When a report is marked: the flags of its quality as statements about the run
    (`Snapshot` in common/beupobserve/observer.go). */
module Marks {
  import opened Counters
  import opened Windows
  import opened Observation

  /** The open window, or the lookahead, may lack samples; a sample fell outside the
      clock's window; and what the reports were marked with. */
  datatype Marking = Marking(now: bool, soon: bool, gap: bool, partials: seq<bool>, gaps: seq<bool>)

  /** A sample is lost that no window accounts for. */
  predicate Loses(s: Sys, step: Step) { Next(s, step).core.dropped > s.core.dropped }

  /** One of those is lost because of its minute. */
  predicate Strays(s: Sys, step: Step) { Next(s, step).core.drops.boundary > s.core.drops.boundary }

  predicate Closes(s: Sys, step: Step) {
    step.EndDrain? && s.lock.Draining? && !(s.lock.left > 0 && s.core.pending != []) && s.lock.closing.Some?
  }

  predicate Resets(s: Sys, step: Step) { step.Advance? && s.lock.Changing? && Wholesale(s.lock.change) && s.lock.phase == 2 }

  /** A loss may concern the open window and the lookahead; a reset spoils the open one;
      a window that closes on time hands the lookahead's mark on, a late one leaves a
      window that was not watched from its beginning. */
  function Marked(s: Sys, m: Marking, step: Step): Marking {
    if Closes(s, step) then
      if s.lock.closing.value == s.core.start + 60 then Marking(m.soon, false, false, m.partials + [m.now], m.gaps + [m.gap])
      else Marking(true, false, false, m.partials + [true], m.gaps + [true])
    else Marking(m.now || Loses(s, step) || Resets(s, step), m.soon || Loses(s, step), m.gap || Strays(s, step), m.partials, m.gaps)
  }

  function MarkingOf(s: Sys, m: Marking, steps: seq<Step>): Marking
    decreases |steps|
  {
    if steps == [] then m else MarkingOf(Next(s, steps[0]), Marked(s, m, steps[0]), steps[1..])
  }

  ghost predicate Told(closed: seq<Closed>, m: Marking) {
    && |m.partials| == |closed| == |m.gaps|
    && forall i :: 0 <= i < |closed| ==> closed[i].quality.partial == m.partials[i] && closed[i].quality.clockGap == m.gaps[i]
  }

  ghost predicate Held(c: Core, m: Marking) {
    && m.now == (c.window.partial || c.dropped > 0) && m.soon == (c.dropped > 0) && m.gap == c.clockGap
    && !NextOf(c).partial && (c.clockGap ==> c.dropped > 0)
  }

  /** Flags and loss counters move together. */
  ghost predicate Onwards(c: Core, d: Core) {
    && d.window.partial == c.window.partial && NextOf(d).partial == NextOf(c).partial && d.dropped >= c.dropped
    && d.drops.boundary >= c.drops.boundary && d.clockGap == (c.clockGap || d.drops.boundary > c.drops.boundary)
    && (d.drops.boundary > c.drops.boundary ==> d.dropped > c.dropped)
  }

  lemma BookPartial(w: Window, subject: string, credential: string, e: Event, metrics: bool, slots: nat, edges: nat)
    ensures Book(w, subject, credential, e, metrics, slots, edges).0.partial == w.partial
  {
    hide Booked, Opened;
  }

  lemma RecordInPartial(c: Core, w: Window, e: Event)
    ensures RecordIn(c, w, e).0.partial == w.partial
  {
    if e.key in c.bindings { BookPartial(w, c.bindings[e.key], CredentialOf(c, e.key), e, c.metrics, Slots(c), Edges(c)); }
    hide Book, Slots, Edges;
  }

  lemma RecordCases(c: Core, e: Event)
    ensures var d := Record(c, e);
            if Stale(c, e) then d.window == c.window && d.next == c.next && d.dropped == c.dropped + 1 && d.drops.boundary == c.drops.boundary && d.clockGap == c.clockGap
            else if Outside(c, e) then d.window == c.window && d.next == c.next && d.dropped == c.dropped + 1 && d.drops.boundary == c.drops.boundary + 1 && d.clockGap
            else && d.dropped == c.dropped && d.drops.boundary == c.drops.boundary && d.clockGap == c.clockGap
                 && (if e.minute == c.start + 60 then d.window == c.window && d.next == Some(RecordIn(c, NextOf(c), e).0)
                     else d.window == RecordIn(c, c.window, e).0 && d.next == c.next)
  {
    hide RecordIn, Stale, Outside;
  }

  lemma RecordOnwards(c: Core, e: Event)
    ensures Onwards(c, Record(c, e))
  {
    RecordInPartial(c, NextOf(c), e);
    RecordInPartial(c, c.window, e);
    RecordCases(c, e);
    hide RecordIn, Stale, Outside, Record;
  }

  lemma ObserveOnwards(c: Core, minute: int, sequence: nat)
    ensures Onwards(c, ObserveMinute(c, minute, sequence).0)
  {
  }

  lemma OnwardsOn(c: Core, d: Core, e: Core)
    requires Onwards(c, d) && Onwards(d, e)
    ensures Onwards(c, e)
  {
  }

  lemma SameOnwards(c: Core, d: Core)
    requires d.window == c.window && d.next == c.next && d.dropped == c.dropped && d.drops == c.drops && d.clockGap == c.clockGap
    ensures Onwards(c, d)
  {
  }

  lemma ApplySame(c: Core, change: Change)
    ensures var d := Apply(c, change);
            d.window == c.window && d.next == c.next && d.dropped == c.dropped && d.drops == c.drops && d.clockGap == c.clockGap
  {
    hide Rebound, SubjectOf, Tagged;
  }

  lemma AdvanceOnwards(s: Sys)
    requires !Resets(s, Advance)
    ensures Onwards(s.core, AdvanceTo(s).core)
  {
    if s.lock.Changing? { ApplySame(s.core, s.lock.change); }
    hide Apply, Onwards, Reset;
    SameOnwards(s.core, AdvanceTo(s).core);
  }

  lemma CheckOnwards(s: Sys, f: Flying)
    ensures Onwards(s.core, CheckTo(s, f).core)
  {
    ObserveOnwards(s.core, f.event.minute, f.sequence);
    SameOnwards(s.core, s.core);
    hide ObserveMinute, Backwards, Onwards;
  }

  /** A sample that is malformed or finds the queue full is a loss of no window. */
  lemma LossOnwards(s: Sys, step: Step)
    requires step.Malformed? || step.Enter?
    ensures Onwards(s.core, Next(s, step).core)
  {
  }

  lemma QuietSame(s: Sys, step: Step)
    requires step.Arrive? || step.Number? || step.Read? || step.Renumber? || step.Reread? || step.BeginDrain? || step.BeginChange? || (step.EndDrain? && !Closes(s, step))
    ensures var c, d := s.core, Next(s, step).core;
            d.window == c.window && d.next == c.next && d.dropped == c.dropped && d.drops == c.drops && d.clockGap == c.clockGap
  {
    hide Stamp, Minute, Unread;
  }

  lemma OtherOnwards(s: Sys, step: Step)
    requires !step.Finish? && !step.DrainOne? && !step.Check? && !step.Advance? && !Closes(s, step)
    ensures Onwards(s.core, Next(s, step).core)
  {
    hide Onwards, Next, Closes;
    if step.Malformed? || step.Enter? {
      LossOnwards(s, step);
    } else {
      QuietSame(s, step);
      SameOnwards(s.core, Next(s, step).core);
    }
  }

  lemma FinishOnwards(s: Sys)
    ensures Onwards(s.core, FinishTo(s).core)
  {
    if s.lock.Recording? && s.lock.again.Shown? {
      var minute, sequence := s.lock.again.minute, s.lock.again.sequence;
      var r := ObserveMinute(s.core, minute, sequence);
      ObserveOnwards(s.core, minute, sequence);
      RecordOnwards(r.0, Restamped(s.lock.event, minute));
      OnwardsOn(s.core, r.0, Record(r.0, Restamped(s.lock.event, minute)));
      hide ObserveMinute, Record, Onwards, Counts, Backwards;
    }
  }

  lemma DrainOnwards(s: Sys)
    ensures Onwards(s.core, Next(s, DrainOne).core)
  {
    if MayDrain(s.lock) && s.core.pending != [] {
      var c := s.core.(pending := s.core.pending[1..]);
      RecordOnwards(c, s.core.pending[0]);
      OnwardsOn(s.core, c, Record(c, s.core.pending[0]));
      hide Record, Counts;
    }
  }

  lemma StepOnwards(s: Sys, step: Step)
    requires !Closes(s, step) && !Resets(s, step)
    ensures Onwards(s.core, Next(s, step).core)
  {
    hide Onwards;
    if step.Finish? {
      FinishOnwards(s);
    } else if step.DrainOne? {
      DrainOnwards(s);
    } else if step.Check? {
      CheckOnwards(s, step.flying);
    } else if step.Advance? {
      AdvanceOnwards(s);
    } else {
      hide Next;
      OtherOnwards(s, step);
    }
  }

  lemma CloseMarks(s: Sys, m: Marking, step: Step)
    requires Held(s.core, m) && Told(s.closed, m) && Closes(s, step)
    ensures Held(Next(s, step).core, Marked(s, m, step)) && Told(Next(s, step).closed, Marked(s, m, step))
  {
  }

  lemma ResetMarks(s: Sys, m: Marking, step: Step)
    requires Held(s.core, m) && Told(s.closed, m) && Resets(s, step)
    ensures Held(Next(s, step).core, Marked(s, m, step)) && Told(Next(s, step).closed, Marked(s, m, step))
  {
  }

  lemma ClosedSame(s: Sys, step: Step)
    requires !Closes(s, step)
    ensures Next(s, step).closed == s.closed
  {
    hide ObserveMinute, Stamp, Backwards, Minute, Unread, AdvanceCore, AdvanceLock, Record, Counts;
  }

  lemma StepMarks(s: Sys, m: Marking, step: Step)
    requires Held(s.core, m) && Told(s.closed, m)
    ensures Held(Next(s, step).core, Marked(s, m, step)) && Told(Next(s, step).closed, Marked(s, m, step))
  {
    if Closes(s, step) { CloseMarks(s, m, step); }
    else if Resets(s, step) { ResetMarks(s, m, step); }
    else {
      StepOnwards(s, step);
      ClosedSame(s, step);
      hide Next, Closes, Resets;
    }
  }

  lemma {:induction false} RunMarks(s: Sys, m: Marking, steps: seq<Step>)
    requires Held(s.core, m) && Told(s.closed, m)
    ensures Held(Run(s, steps).core, MarkingOf(s, m, steps)) && Told(Run(s, steps).closed, MarkingOf(s, m, steps))
    decreases |steps|
  {
    if steps != [] {
      StepMarks(s, m, steps[0]);
      hide Next, Marked, Held, Told;
      RunMarks(Next(s, steps[0]), Marked(s, m, steps[0]), steps[1..]);
    }
  }

  /** Over every interleaving, a report is marked as partial exactly when its window was
      not watched from its beginning, was reset, or a sample that no window accounts for
      was lost while it was open or ahead; and as a clock gap exactly when it closed late
      or a sample was lost because of its minute. */
  lemma MarksExactly(registry: Registry, revision: string, metrics: bool, seconds: int, steps: seq<Step>)
    ensures var i := Initial(registry, revision, metrics, seconds);
            Told(Run(i, steps).closed, MarkingOf(i, Marking(seconds % 60 != 0, false, false, [], []), steps))
  {
    var i := Initial(registry, revision, metrics, seconds);
    assert seconds != Minute(seconds) <==> seconds % 60 != 0;
    hide Minute;
    RunMarks(i, Marking(seconds % 60 != 0, false, false, [], []), steps);
  }
}
