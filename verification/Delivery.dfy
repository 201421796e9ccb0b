/** One accounting node, its disk and the panel it reports to, as a transition
    system with lost replies, deferred commits, uncertain writes and crashes.
    A step is one external call of common/beuptransfer together with the local
    work up to the next one. */
module Delivery {
  import opened Text
  import opened Counters
  import opened Journals

  /** A failed `Save` leaves either journal on disk and poisons the process. */
  datatype Write = Saved | FailedOld | FailedNew

  /** How a `Commit` call ends: acknowledged; committed but the reply lost;
      nothing happened; queued by the panel and committed later; or answered
      with somebody else's acknowledgement. */
  datatype Reply = Answered | Lost | Refused | Deferred | Garbled(ack: Ack)

  /** `log` is what the panel has booked, in order; `queue` what it may still
      book; `sent` every batch ever handed to it. */
  datatype Panel = Panel(log: seq<Batch>, queue: set<Batch>, sent: set<Batch>)

  datatype Outcome<+S, +T> = Outcome(after: S, result: Result<T>)

  predicate SameSlot(a: Batch, b: Batch) { a.scope == b.scope && a.epoch == b.epoch && a.sequence == b.sequence }

  predicate Occupied(log: seq<Batch>, b: Batch) { exists i :: 0 <= i < |log| && SameSlot(log[i], b) }

  /** The receiver contract: a slot never takes a second digest. */
  predicate Accepts(log: seq<Batch>, b: Batch) {
    forall i :: 0 <= i < |log| && SameSlot(log[i], b) ==> log[i].digest == b.digest
  }

  /** ... and is booked once. */
  function Land(log: seq<Batch>, b: Batch): seq<Batch> { if Occupied(log, b) then log else log + [b] }

  function Commit(p: Panel, b: Batch, reply: Reply): Outcome<Panel, Ack> {
    var p := p.(sent := p.sent + {b});
    if !Accepts(p.log, b) then Outcome(p, Fail(ErrOther))
    else
      match reply
      case Answered => Outcome(p.(log := Land(p.log, b)), Ok(AckFor(b)))
      case Lost => Outcome(p.(log := Land(p.log, b)), Fail(ErrOther))
      case Refused => Outcome(p, Fail(ErrOther))
      case Deferred => Outcome(p.(queue := p.queue + {b}), Fail(ErrPending))
      case Garbled(a) => Outcome(p, if a == AckFor(b) then Fail(ErrOther) else Ok(a))
  }

  /** The panel books a batch it had queued. */
  function Settle(p: Panel, b: Batch): Panel {
    if b in p.queue && Accepts(p.log, b) then Panel(Land(p.log, b), p.queue - {b}, p.sent) else p
  }

  /** The raw counters one process contributed: its final snapshot if it sealed
      (`complete`), otherwise the part that had been acknowledged. */
  datatype Segment = Segment(raw: seq<Sample>, complete: bool)

  /** The counter session a process holds: created by a successful begin. */
  datatype Live = Live(process: string, base: seq<Sample>, uncertain: bool)

  datatype Node = Node(state: Journal, poisoned: bool, live: Option<Live>)

  datatype Sys = Sys(scope: string, epoch: string, disk: Option<Journal>, node: Option<Node>, panel: Panel, segments: seq<Segment>)

  function Boot(scope: string, epoch: string): Sys { Sys(scope, epoch, None, None, Panel([], {}, {}), []) }

  /** `Outbox.save`; `segments` is what the processes have contributed once `j` is on disk. */
  function Save(s: Sys, j: Journal, segments: seq<Segment>, w: Write): Outcome<Sys, ()>
    requires s.node.Some?
  {
    var n := s.node.value;
    if n.poisoned then Outcome(s, Fail(ErrUncertain))
    else
      match w
      case Saved => Outcome(s.(disk := Some(j), node := Some(n.(state := j)), segments := segments), Ok(()))
      case FailedOld => Outcome(s.(node := Some(n.(poisoned := true))), Fail(ErrUncertain))
      case FailedNew => Outcome(s.(disk := Some(j), node := Some(n.(poisoned := true)), segments := segments), Fail(ErrUncertain))
  }

  /** `Open`. A journal is created on an empty store. */
  function Start(s: Sys, w: Write): Outcome<Sys, ()> {
    if !ValidScope(s.scope) || !ValidHex(s.epoch, 16) then Outcome(s, Fail(ErrOther))
    else
      match s.disk
      case None =>
        var f := Fresh(s.scope, s.epoch);
        (match w
         case Saved => Outcome(s.(disk := Some(f), node := Some(Node(f, false, None))), Ok(()))
         case FailedOld => Outcome(s, Fail(ErrUncertain))
         case FailedNew => Outcome(s.(disk := Some(f)), Fail(ErrUncertain)))
      case Some(j) =>
        var r := Reopen(j, s.scope, s.epoch);
        if r.Fail? then Outcome(s, Fail(r.error)) else Outcome(s.(node := Some(Node(r.value, false, None))), Ok(()))
  }

  /** `replay`. */
  function Deliver(s: Sys, reply: Reply, w: Write): Outcome<Sys, Option<Ack>>
    requires s.node.Some?
  {
    var n := s.node.value;
    if n.poisoned then Outcome(s, Fail(ErrUncertain))
    else if n.state.pending.None? then Outcome(s, Ok(None))
    else
      var b := n.state.pending.value.batch;
      var c := Commit(s.panel, b, reply);
      var s := s.(panel := c.after);
      if c.result.Fail? then Outcome(s, Fail(c.result.error))
      else if c.result.value != AckFor(b) then Outcome(s, Fail(ErrOther))
      else
        var saved := Save(s, Advance(n.state), s.segments, w);
        Outcome(saved.after, if saved.result.Fail? then Fail(saved.result.error) else Ok(Some(AckFor(b))))
  }

  predicate Idle(s: Sys) { s.node.Some? && !s.node.value.poisoned && s.node.value.state.pending.None? && ValidRowsOf(s.node.value.state) }

  predicate ValidRowsOf(j: Journal) { forall i :: 0 <= i < |j.committed| ==> ValidRow(j.committed[i]) }

  predicate IsSealed(j: Journal) { j.session.Some? && j.session.value.isSealed }

  /** The second part of `flush`: persist the next batch before it is sent. */
  function Stage(s: Sys, totals: seq<Sample>, w: Write): Outcome<Sys, ()>
    requires Idle(s) && !IsSealed(s.node.value.state)
  {
    var r := Staged(s.node.value.state, totals);
    if r.Fail? then Outcome(s, Fail(r.error)) else Save(s, r.value, s.segments, w)
  }

  /** `probeReady`. */
  function Probe(s: Sys, r: DrainRequest, w: Write): Outcome<Sys, ()>
    requires s.node.Some?
  {
    var n := s.node.value;
    if n.poisoned then Outcome(s, Fail(ErrUncertain))
    else if !CanReserve(n.state, r) then Outcome(s, Fail(ErrCoverage))
    else Save(s, Reserve(n.state, r), s.segments, w)
  }

  /** The durable hold at the start of `Drain`. */
  function Hold(s: Sys, r: DrainRequest, w: Write): Outcome<Sys, ()>
    requires s.node.Some?
  {
    var n := s.node.value;
    if n.poisoned then Outcome(s, Fail(ErrUncertain))
    else if !ValidRequest(r) then Outcome(s, Fail(ErrCoverage))
    else if r.id in n.state.drains then Outcome(s, if n.state.drains[r.id].request != r then Fail(ErrOther) else Ok(()))
    else if !CanReserve(n.state, r) then Outcome(s, Fail(ErrCoverage))
    else Save(s, Held(n.state, r), s.segments, w)
  }

  /** The adapter a caller hands to `Drain`: the one below any counter session, or a
      counter session, which need not be the one the process holds now. */
  datatype Via = Bare | Through(session: Live)

  /** Inspections through an uncertain session never report tracking as ready. */
  predicate MayProve(via: Via) { via.Through? ==> !via.session.uncertain }

  ghost predicate Proving(s: Sys, via: Via, r: DrainRequest, final: Sample, receipt: Ack) {
    s.node.Some? && !s.node.value.poisoned && MayProve(via) && Provable(s.node.value.state, r, final, receipt)
  }

  /** The proof at the end of `Drain`. */
  function Prove(s: Sys, r: DrainRequest, final: Sample, receipt: Ack, w: Write): Outcome<Sys, DrainProof>
    requires s.node.Some?
  {
    var j := s.node.value.state;
    var saved := Save(s, Proven(j, r, final, receipt), s.segments, w);
    Outcome(saved.after, if saved.result.Fail? then Fail(saved.result.error) else Ok(DrainProof(r, j.scope, j.epoch, final, receipt)))
  }

  /** What the unsealed process had acknowledged, when it is given up. */
  function Abandoned(j: Journal): seq<Segment>
  {
    if j.session.Some? && ValidSession(j) && Delta(j.session.value.base, j.committed).Ok?
    then [Segment(Delta(j.session.value.base, j.committed).value, false)] else []
  }

  predicate ValidSession(j: Journal) {
    j.session.Some? ==> forall i :: 0 <= i < |j.session.value.base| ==> ValidRow(j.session.value.base[i])
  }

  /** `beginCounterSession` up to and including its save. */
  function Begin(s: Sys, process: string, unclean: bool, now: int, w: Write): Outcome<Sys, ()>
    requires s.node.Some?
  {
    var n := s.node.value;
    if n.poisoned then Outcome(s, Fail(ErrUncertain))
    else
      var r := Begun(n.state, process, unclean, now);
      if r.Fail? then Outcome(s, Fail(r.error))
      else
        var saved := Save(s, r.value, if unclean then s.segments + Abandoned(n.state) else s.segments, w);
        if saved.result.Fail? then saved
        else
          var ss := r.value.session.value;
          Outcome(saved.after.(node := Some(saved.after.node.value.(live := Some(Live(process, ss.base, ss.recovery.Some?))))), Ok(()))
  }

  // ---- the carried base ------------------------------------------------------

  predicate Overflows(base: seq<Sample>, r: Sample) {
    r.upload > MAX_INT64 - At(Index(base), r.Id()).up || r.download > MAX_INT64 - At(Index(base), r.Id()).down
  }

  function Carried(base: seq<Sample>, r: Sample): Sample
    requires ValidRow(r) && !Overflows(base, r) && ZERO.Within(At(Index(base), r.Id()))
  {
    Sample(r.uid, r.credential, r.upload + At(Index(base), r.Id()).up, r.download + At(Index(base), r.Id()).down)
  }

  /** Rows of the base that this process has not counted for. */
  function Retired(base: seq<Sample>, raw: seq<Sample>): seq<Sample> {
    if base == [] then []
    else Retired(base[..|base| - 1], raw) + (if base[|base| - 1].Id() in Index(raw) then [] else [base[|base| - 1]])
  }

  /** `CounterSession.Snapshot`: the carried base plus this process's counters. */
  function Combine(base: seq<Sample>, raw: seq<Sample>): Result<seq<Sample>>
    requires Canonical(base)
  {
    var rows := Samples(raw);
    if rows.Fail? then rows
    else if exists i :: 0 <= i < |rows.value| && Overflows(base, rows.value[i]) then Fail(ErrOther)
    else
      CanonicalIndex(base);
      SamplesCanonical(raw);
      Samples(Retired(base, rows.value) + seq(|rows.value|, i requires 0 <= i < |rows.value| => Carried(base, rows.value[i])))
  }

  lemma {:induction false} RetiredRows(base: seq<Sample>, raw: seq<Sample>)
    ensures forall b :: b in Retired(base, raw) <==> b in base && b.Id() !in Index(raw)
  {
    if base != [] {
      var init := base[..|base| - 1];
      RetiredRows(init, raw);
      assert base == init + [base[|base| - 1]];
    }
  }

  /** A snapshot is canonical and adds the carried base to the raw counters of
      every identity. */
  lemma CombineSpec(base: seq<Sample>, raw: seq<Sample>)
    requires Canonical(base) && Combine(base, raw).Ok?
    ensures Canonical(Combine(base, raw).value) && DistinctIds(raw)
    ensures forall id :: At(Index(Combine(base, raw).value), id) == At(Index(base), id).Plus(At(Index(raw), id))
    ensures Index(Combine(base, raw).value).Keys == Index(base).Keys + Index(raw).Keys
  {
    hide Index, Samples, Ordered;
    var rows := Samples(raw).value;
    SamplesSpec(raw, rows);
    IndexPermuted(raw, rows);
    CanonicalIndex(base);
    CanonicalIndex(rows);
    var left := Retired(base, rows);
    var right := seq(|rows|, i requires 0 <= i < |rows| => Carried(base, rows[i]));
    var out := Combine(base, raw).value;
    SamplesSpec(left + right, out);
    CanonicalIndex(out);
    DistinctTransfers(out, left + right);
    IndexPermuted(left + right, out);
    forall id
      ensures At(Index(out), id) == At(Index(base), id).Plus(At(Index(rows), id))
      ensures id in Index(out) <==> id in Index(base) || id in Index(rows)
    {
      CombinedRow(base, rows, left, right, id);
    }
  }

  lemma CountedRow(all: seq<Sample>, k: int, base: seq<Sample>, rows: seq<Sample>, i: int)
    requires DistinctIds(all) && DistinctIds(rows) && 0 <= i < |rows| && 0 <= k < |all|
    requires ValidRow(rows[i]) && !Overflows(base, rows[i]) && ZERO.Within(At(Index(base), rows[i].Id()))
    requires all[k] == Carried(base, rows[i])
    ensures rows[i].Id() in Index(all)
    ensures At(Index(all), rows[i].Id()) == At(Index(base), rows[i].Id()).Plus(At(Index(rows), rows[i].Id()))
  {
    IndexRow(all, k);
    IndexRow(rows, i);
    hide Index, DistinctIds;
  }

  lemma RetiredRow(all: seq<Sample>, k: int, base: seq<Sample>, rows: seq<Sample>, i: int)
    requires DistinctIds(all) && DistinctIds(base) && 0 <= i < |base| && 0 <= k < |all|
    requires all[k] == base[i] && base[i].Id() !in Index(rows)
    ensures base[i].Id() in Index(all)
    ensures At(Index(all), base[i].Id()) == At(Index(base), base[i].Id()).Plus(At(Index(rows), base[i].Id()))
  {
    IndexRow(all, k);
    IndexRow(base, i);
    hide Index, DistinctIds;
  }

  lemma CombinedRow(base: seq<Sample>, rows: seq<Sample>, left: seq<Sample>, right: seq<Sample>, id: Identity)
    requires ValidRows(rows) && DistinctIds(base) && DistinctIds(rows) && DistinctIds(left + right)
    requires forall i :: 0 <= i < |rows| ==> !Overflows(base, rows[i]) && ZERO.Within(At(Index(base), rows[i].Id()))
    requires |right| == |rows| && forall i :: 0 <= i < |rows| ==> right[i] == Carried(base, rows[i])
    requires left == Retired(base, rows)
    ensures At(Index(left + right), id) == At(Index(base), id).Plus(At(Index(rows), id))
    ensures id in Index(left + right) <==> id in Index(base) || id in Index(rows)
  {
    hide Index, Retired, DistinctIds, Overflows, At;
    CarriedIds(base, rows, right);
    hide Carried, ValidRow;
    if id in Index(rows) {
      var i := IndexOf(rows, id);
      assert (left + right)[|left| + i] == right[i];
      CountedRow(left + right, |left| + i, base, rows, i);
    } else if id in Index(base) {
      var i := IndexOf(base, id);
      var k := RetiredAt(base, rows, i);
      assert (left + right)[k] == base[i];
      RetiredRow(left + right, k, base, rows, i);
    } else {
      NoOtherRow(base, rows, left, right, id);
      AtNowhere(Index(base), Index(rows), Index(left + right), id);
    }
  }

  lemma AtNowhere(a: map<Identity, Usage>, b: map<Identity, Usage>, c: map<Identity, Usage>, id: Identity)
    requires id !in a && id !in b && id !in c
    ensures At(c, id) == At(a, id).Plus(At(b, id))
  {
  }

  lemma CarriedIds(base: seq<Sample>, rows: seq<Sample>, right: seq<Sample>)
    requires ValidRows(rows) && forall i :: 0 <= i < |rows| ==> !Overflows(base, rows[i]) && ZERO.Within(At(Index(base), rows[i].Id()))
    requires |right| == |rows| && forall i :: 0 <= i < |rows| ==> right[i] == Carried(base, rows[i])
    ensures forall i :: 0 <= i < |rows| ==> right[i].Id() == rows[i].Id()
  {
    hide Index;
  }

  lemma NoOtherRow(base: seq<Sample>, rows: seq<Sample>, left: seq<Sample>, right: seq<Sample>, id: Identity)
    requires DistinctIds(base) && DistinctIds(rows) && DistinctIds(left + right)
    requires |right| == |rows| && forall i :: 0 <= i < |rows| ==> right[i].Id() == rows[i].Id()
    requires left == Retired(base, rows) && id !in Index(base) && id !in Index(rows)
    ensures id !in Index(left + right)
  {
    hide Retired, DistinctIds;
    if id in Index(left + right) {
      var k := IndexOf(left + right, id);
      hide Index;
      if k < |left| { RetiredFrom(base, rows, k); } else { IndexRow(rows, k - |left|); }
    }
  }

  lemma RetiredAt(base: seq<Sample>, rows: seq<Sample>, i: int) returns (k: int)
    requires 0 <= i < |base| && base[i].Id() !in Index(rows)
    ensures 0 <= k < |Retired(base, rows)| && Retired(base, rows)[k] == base[i]
  {
    RetiredRows(base, rows);
    assert base[i] in Retired(base, rows);
    k :| 0 <= k < |Retired(base, rows)| && Retired(base, rows)[k] == base[i];
  }

  lemma RetiredFrom(base: seq<Sample>, rows: seq<Sample>, k: int)
    requires DistinctIds(base) && 0 <= k < |Retired(base, rows)|
    ensures Retired(base, rows)[k].Id() in Index(base)
  {
    RetiredRows(base, rows);
    assert Retired(base, rows)[k] in base;
    var i :| 0 <= i < |base| && base[i] == Retired(base, rows)[k];
    IndexRow(base, i);
  }

  ghost predicate Sealing(s: Sys, process: string, raw: seq<Sample>) {
    && s.node.Some? && !s.node.value.poisoned
    && var j := s.node.value.state;
       && j.session.Some? && j.session.value.process == process && !j.session.value.isSealed
       && j.pending.None? && j.lastAck.Some?
       && Canonical(j.session.value.base) && Canonical(raw) && Combine(j.session.value.base, raw) == Ok(j.committed)
  }

  /** The final save of `Seal`; `raw` is the stable snapshot of the inner counters. */
  function SealUp(s: Sys, raw: seq<Sample>, w: Write): Outcome<Sys, ()>
    requires s.node.Some? && s.node.value.state.session.Some?
  {
    Save(s, Seal(s.node.value.state), s.segments + [Segment(raw, true)], w)
  }

  // ---- runs -------------------------------------------------------------------

  datatype Step =
    | DoStart(w: Write)
    | DoCrash
    | DoDeliver(reply: Reply, w: Write)
    | DoStage(totals: seq<Sample>, w: Write)
    | DoProbe(request: DrainRequest, w: Write)
    | DoHold(request: DrainRequest, w: Write)
    | DoProve(via: Via, request: DrainRequest, final: Sample, receipt: Ack, w: Write)
    | DoBegin(process: string, unclean: bool, now: int, w: Write)
    | DoSeal(process: string, raw: seq<Sample>, w: Write)
    | DoSettle(batch: Batch)

  /** The state after one step; a step whose guard fails changes nothing. */
  ghost function Next(s: Sys, step: Step): Sys {
    match step
    case DoSettle(b) => s.(panel := Settle(s.panel, b))
    case DoCrash => s.(node := None)
    case DoStart(w) => if s.node.None? then Start(s, w).after else s
    case DoDeliver(reply, w) => if s.node.Some? then Deliver(s, reply, w).after else s
    case DoStage(totals, w) => if Idle(s) && !IsSealed(s.node.value.state) then Stage(s, totals, w).after else s
    case DoProbe(r, w) => if s.node.Some? then Probe(s, r, w).after else s
    case DoHold(r, w) => if s.node.Some? then Hold(s, r, w).after else s
    case DoProve(via, r, final, receipt, w) => if Proving(s, via, r, final, receipt) then Prove(s, r, final, receipt, w).after else s
    case DoBegin(process, unclean, now, w) => if s.node.Some? then Begin(s, process, unclean, now, w).after else s
    case DoSeal(process, raw, w) => if Sealing(s, process, raw) then SealUp(s, raw, w).after else s
  }

  ghost function Run(s: Sys, steps: seq<Step>): Sys
    decreases |steps|
  {
    if steps == [] then s else Run(Next(s, steps[0]), steps[1..])
  }

  /** The step is not the first unclean resume of its epoch under a clock at or before
      1970. */
  predicate Timely(s: Sys, step: Step) {
    step.DoBegin? && step.unclean && step.now <= 0 && s.node.Some? && s.node.value.state.session.Some? ==> s.node.value.state.session.value.recovery.Some?
  }

  ghost predicate ClockSet(s: Sys, steps: seq<Step>)
    decreases |steps|
  {
    steps == [] || (Timely(s, steps[0]) && ClockSet(Next(s, steps[0]), steps[1..]))
  }
}
