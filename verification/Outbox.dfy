/** The outbox object of common/beuptransfer: every method is proved to move the
    node, its disk and the panel along the steps of `Delivery`. Outcomes of
    external calls are parameters. */
module Outboxes {
  import opened Text
  import opened Counters
  import opened Journals
  import opened Delivery
  import opened Settlement
  import Opening
  import A = Adapters
  import G = Guards

  // ---- runs as a relation --------------------------------------------------------

  ghost predicate Moves(s: Sys, t: Sys) { exists steps :: ClockSet(s, steps) && t == Run(s, steps) }

  lemma MovesNot(s: Sys)
    ensures Moves(s, s)
  {
    assert Run(s, []) == s;
  }

  lemma MovesBy(s: Sys, step: Step)
    requires Timely(s, step)
    ensures Moves(s, Next(s, step))
  {
    assert Run(s, [step]) == Run(Next(s, step), [step][1..]) == Next(s, step) by {
      hide Next;
      assert [step][1..] == [];
    }
    assert ClockSet(s, [step]) by {
      hide Next;
      assert [step][1..] == [];
    }
  }

  lemma MovesOn(s: Sys, t: Sys, u: Sys)
    requires Moves(s, t) && Moves(t, u)
    ensures Moves(s, u)
  {
    var a :| ClockSet(s, a) && t == Run(s, a);
    var b :| ClockSet(t, b) && u == Run(t, b);
    RunAppend(s, a, b);
    ClockAppend(s, a, b);
  }

  /** A run never loses a recorded drain. */
  lemma MovesHeld(s: Good, t: Sys, id: string)
    requires Moves(s, t) && s.disk.Some? && id in s.disk.value.drains
    ensures t.disk.Some? && id in t.disk.value.drains && t.disk.value.drains[id].request == s.disk.value.drains[id].request
  {
    hide Inv, Run, ClockSet;
    var steps :| ClockSet(s, steps) && t == Run(s, steps);
    RunOnward(s, steps);
  }

  // ---- flush -----------------------------------------------------------------------

  /** One `Commit` with the save that follows it. */
  datatype Exchange = Exchange(reply: Reply, write: Write)

  lemma DeliverIdle(s: Good, x: Exchange)
    requires s.node.Some? && Deliver(s, x.reply, x.write).result.Ok?
    ensures var t := Deliver(s, x.reply, x.write).after;
            && Idle(t) && t.node.value.live == s.node.value.live
            && t.node.value.state.drains == s.node.value.state.drains && t.node.value.state.session == s.node.value.state.session
            && (s.node.value.state.pending.Some? ==>
                  && t.node.value.state == Advance(s.node.value.state)
                  && Deliver(s, x.reply, x.write).result == Ok(Some(AckFor(s.node.value.state.pending.value.batch))))
            && (s.node.value.state.pending.None? ==> t == s)
  {
    hide WellFormed, Backed, Commit, ValidRowsOf;
    DeliverKeeps(s, x.reply, x.write);
    DeliverEnds(s, x.reply, x.write);
    hide Deliver, Advance;
    ValidCommitted(Deliver(s, x.reply, x.write).after);
  }

  lemma DeliverEnds(s: Sys, reply: Reply, w: Write)
    requires s.node.Some? && Deliver(s, reply, w).result.Ok?
    ensures var t := Deliver(s, reply, w).after;
            && t.node.Some? && !t.node.value.poisoned && t.node.value.state.pending.None? && t.node.value.live == s.node.value.live
            && t.node.value.state.drains == s.node.value.state.drains && t.node.value.state.session == s.node.value.state.session
            && (s.node.value.state.pending.Some? ==>
                  && t.node.value.state == Advance(s.node.value.state)
                  && Deliver(s, reply, w).result == Ok(Some(AckFor(s.node.value.state.pending.value.batch))))
            && (s.node.value.state.pending.None? ==> t == s)
  {
    hide Commit;
  }

  lemma ValidCommitted(s: Good)
    requires s.node.Some? && !s.node.value.poisoned
    ensures ValidRowsOf(s.node.value.state)
  {
  }

  /** `flush`: replay, persist the next batch, send it. */
  ghost function FlushTo(s: Good, totals: seq<Sample>, first: Exchange, w: Write, second: Exchange): Outcome<Sys, Option<Ack>>
    requires s.node.Some?
  {
    if IsSealed(s.node.value.state) then Outcome(s, Fail(ErrEpoch))
    else
      var d := Deliver(s, first.reply, first.write);
      if d.result.Fail? then Outcome(d.after, Fail(d.result.error))
      else
        DeliverIdle(s, first);
        var t := Stage(d.after, totals, w);
        if t.result.Fail? then Outcome(t.after, Fail(t.result.error))
        else Deliver(t.after, second.reply, second.write)
  }

  lemma FlushKeeps(s: Good, totals: seq<Sample>, first: Exchange, w: Write, second: Exchange)
    requires s.node.Some?
    ensures Inv(FlushTo(s, totals, first, w, second).after) && Moves(s, FlushTo(s, totals, first, w, second).after)
  {
    hide WellFormed, Backed, Deliver, Stage, Moves;
    MovesNot(s);
    if !IsSealed(s.node.value.state) {
      var d := Deliver(s, first.reply, first.write);
      DeliverKeeps(s, first.reply, first.write);
      assert Next(s, DoDeliver(first.reply, first.write)) == d.after;
      MovesBy(s, DoDeliver(first.reply, first.write));
      if d.result.Ok? {
        DeliverIdle(s, first);
        var t := Stage(d.after, totals, w);
        StageKeeps(d.after, totals, w);
        assert Next(d.after, DoStage(totals, w)) == t.after;
        MovesBy(d.after, DoStage(totals, w));
        MovesOn(s, d.after, t.after);
        if t.result.Ok? {
          StagedNode(d.after, totals, w);
          DeliverKeeps(t.after, second.reply, second.write);
          assert Next(t.after, DoDeliver(second.reply, second.write)) == Deliver(t.after, second.reply, second.write).after;
          MovesBy(t.after, DoDeliver(second.reply, second.write));
          MovesOn(s, t.after, Deliver(t.after, second.reply, second.write).after);
        }
      }
    }
  }

  lemma StagedNode(s: Good, totals: seq<Sample>, w: Write)
    requires Idle(s) && !IsSealed(s.node.value.state) && Stage(s, totals, w).result.Ok?
    ensures var t := Stage(s, totals, w).after;
            && t.node.Some? && !t.node.value.poisoned && t.node.value.live == s.node.value.live && t.panel == s.panel
            && Staged(s.node.value.state, totals) == Ok(t.node.value.state)
  {
    hide Staged, WellFormed, Backed;
  }

  /** A successful flush has committed exactly the canonical form of the totals it
      was given, and kept drains, reservations and session. */
  lemma FlushCommits(s: Good, totals: seq<Sample>, first: Exchange, w: Write, second: Exchange)
    requires s.node.Some? && FlushTo(s, totals, first, w, second).result.Ok?
    ensures var t := FlushTo(s, totals, first, w, second).after;
            && t.node.Some? && !t.node.value.poisoned && t.node.value.live == s.node.value.live && t.segments == s.segments
            && var j := t.node.value.state;
               && Samples(totals) == Ok(j.committed) && j.pending.None? && j.lastAck.Some?
               && FlushTo(s, totals, first, w, second).result == Ok(j.lastAck)
               && j.drains == s.node.value.state.drains && j.session == s.node.value.state.session
  {
    var d := Deliver(s, first.reply, first.write);
    DeliverKeeps(s, first.reply, first.write);
    DeliverIdle(s, first);
    StageKeeps(d.after, totals, w);
    StagedNode(d.after, totals, w);
    var t := Stage(d.after, totals, w).after;
    StagedThrough(d.after.node.value.state, totals);
    DeliverIdle(t, second);
    SegmentsSame(s, first);
    SegmentsSame(t, second);
    hide WellFormed, Backed, Deliver, Staged, Samples;
  }

  // ---- when a flush succeeds -------------------------------------------------------------

  /** The call was acknowledged and the save after it succeeded. */
  predicate Done(x: Exchange) { x.reply == Answered && x.write == Saved }

  /** A replay succeeds exactly when nothing waits, or what waits is acknowledged and
      that is saved: the panel never refuses the waiting batch. */
  lemma DeliverExactly(s: Good, x: Exchange)
    requires s.node.Some?
    ensures Deliver(s, x.reply, x.write).result.Ok? <==> !s.node.value.poisoned && (s.node.value.state.pending.None? || Done(x))
  {
    var n := s.node.value;
    if !n.poisoned && n.state.pending.Some? {
      assert s.disk == Some(n.state) && PanelInv(s.disk.value, s.panel) by { hide WellFormed, PanelInv, SegmentInv; }
      LandPending(s.disk.value, s.panel, n.state.pending.value.batch);
    }
    hide Inv, Accepts, Land, Advance;
  }

  /** The totals are an inventory in which nothing has vanished or fallen and every proved
      drain has exactly its final usage. */
  ghost predicate Reportable(j: Journal, committed: seq<Sample>, totals: seq<Sample>) {
    && Opening.Inventory(totals) && Covers(Index(committed), Index(totals))
    && forall id :: IsProved(j, id) ==> Holds(totals, j.drains[id].proof.value.final)
  }

  lemma FinalsExactly(j: Journal, totals: seq<Sample>, after: seq<Sample>)
    requires Samples(totals) == Ok(after)
    ensures (exists id :: id in j.drains && j.drains[id].proof.Some? && !ContainsFinal(after, j.drains[id].proof.value.final))
            <==> exists id :: IsProved(j, id) && !Holds(totals, j.drains[id].proof.value.final)
  {
    SamplesCanonical(totals);
    SamplesIndex(totals);
    hide Samples, Canonical, Index, ContainsFinal;
    forall id | IsProved(j, id) ensures ContainsFinal(after, j.drains[id].proof.value.final) <==> Holds(totals, j.drains[id].proof.value.final) {
      ContainsFinalCanonical(after, j.drains[id].proof.value.final);
    }
  }

  lemma SoundRows(j: Sound)
    ensures Canonical(j.committed) && ValidRows(j.committed)
  {
  }

  lemma StagedExactly(j: Sound, totals: seq<Sample>)
    ensures ValidRows(j.committed) && (Staged(j, totals).Ok? <==> j.next < MAX_SEQUENCE && Reportable(j, j.committed, totals))
  {
    hide WellFormed, Index, Samples, Delta, Canonical, Opening.Inventory, ContainsFinal, Holds, Covers, ValidRows;
    SoundRows(j);
    Opening.InventoryExactly(totals);
    if Samples(totals).Ok? {
      var after := Samples(totals).value;
      SamplesCanonical(totals);
      SamplesIndex(totals);
      DeltaSpec(j.committed, after);
      FinalsExactly(j, totals, after);
      FinalsForall(j, totals);
    }
  }

  lemma FinalsForall(j: Journal, totals: seq<Sample>)
    ensures !(exists id :: IsProved(j, id) && !Holds(totals, j.drains[id].proof.value.final)) <==>
            forall id :: IsProved(j, id) ==> Holds(totals, j.drains[id].proof.value.final)
  {
    hide Holds;
  }

  /** What a flush needs. */
  ghost predicate FlushReady(n: Node, totals: seq<Sample>, first: Exchange, w: Write, second: Exchange) {
    && !n.poisoned && !IsSealed(n.state) && (n.state.pending.Some? ==> Done(first)) && w == Saved && Done(second)
    && (if n.state.pending.Some? then n.state.next + 1 else n.state.next) < MAX_SEQUENCE
    && Reportable(n.state, Acknowledged(n.state), totals)
  }

  /** What the legacy flush of a seal needs: that these totals are acknowledged already, or
      as a flush. */
  ghost predicate SealFlushReady(n: Node, rows: seq<Sample>, zeroth: Exchange, w: Write, second: Exchange) {
    && !n.poisoned && (n.state.pending.Some? ==> Done(zeroth))
    && (((n.state.pending.Some? || n.state.lastAck.Some?) && rows == Acknowledged(n.state))
        || (!IsSealed(n.state) && w == Saved && Done(second) && (if n.state.pending.Some? then n.state.next + 1 else n.state.next) < MAX_SEQUENCE
            && Reportable(n.state, Acknowledged(n.state), rows)))
  }

  /** A flush succeeds exactly when its totals are reportable, numbers are left, the
      session is open, and every call and save in it succeeds. */
  lemma FlushExactly(s: Good, totals: seq<Sample>, first: Exchange, w: Write, second: Exchange)
    requires s.node.Some?
    ensures FlushTo(s, totals, first, w, second).result.Ok? <==> FlushReady(s.node.value, totals, first, w, second)
  {
    var n := s.node.value;
    DeliverExactly(s, first);
    hide WellFormed, Backed, Deliver, Stage, Reportable;
    if !IsSealed(n.state) && Deliver(s, first.reply, first.write).result.Ok? {
      var d := Deliver(s, first.reply, first.write).after;
      DeliverKeeps(s, first.reply, first.write);
      DeliverIdle(s, first);
      StageExactly(d, totals, w);
      SameReport(n.state, d.node.value.state, totals);
      if Stage(d, totals, w).result.Ok? {
        StageKeeps(d, totals, w);
        StagedNode(d, totals, w);
        DeliverExactly(Stage(d, totals, w).after, second);
        StagedPends(d, totals, w);
      }
    }
  }

  lemma StagedPends(s: Good, totals: seq<Sample>, w: Write)
    requires Idle(s) && !IsSealed(s.node.value.state) && Stage(s, totals, w).result.Ok?
    ensures Stage(s, totals, w).after.node.Some? && Stage(s, totals, w).after.node.value.state.pending.Some?
  {
    StagedNode(s, totals, w);
    StagedThrough(s.node.value.state, totals);
    hide Stage, Staged;
  }

  lemma StageExactly(s: Good, totals: seq<Sample>, w: Write)
    requires Idle(s) && !IsSealed(s.node.value.state)
    ensures Stage(s, totals, w).result.Ok? <==>
            s.node.value.state.next < MAX_SEQUENCE && Reportable(s.node.value.state, s.node.value.state.committed, totals) && w == Saved
  {
    assert s.disk == Some(s.node.value.state) by { hide WellFormed, Backed; }
    StagedExactly(s.disk.value, totals);
    hide WellFormed, Backed, Staged, Reportable;
  }

  lemma SameReport(j: Journal, k: Journal, totals: seq<Sample>)
    requires k.drains == j.drains && k.committed == Acknowledged(j)
    ensures Reportable(k, k.committed, totals) <==> Reportable(j, Acknowledged(j), totals)
  {
    hide Opening.Inventory, Covers, Holds, Index;
  }

  lemma StagedThrough(j: Journal, totals: seq<Sample>)
    requires ValidRows(j.committed) && Staged(j, totals).Ok?
    ensures var k := Staged(j, totals).value;
            && k.pending.Some? && Samples(totals) == Ok(k.pending.value.through)
            && k.drains == j.drains && k.session == j.session && k.reservations == j.reservations
  {
    hide Samples, Delta, ContainsFinal;
  }

  lemma SegmentsSame(s: Sys, x: Exchange)
    requires s.node.Some?
    ensures Deliver(s, x.reply, x.write).after.segments == s.segments
  {
    hide Commit, Advance;
  }

  // ---- the environment objects ---------------------------------------------------

  class Store {
    var journal: Option<Journal>

    method Save(j: Journal, w: Write) returns (ok: bool)
      modifies this
      ensures ok <==> w.Saved?
      ensures journal == if w.FailedOld? then old(journal) else Some(j)
    {
      if !w.FailedOld? {
        journal := Some(j);
      }
      ok := w.Saved?;
    }
  }

  class Receiver {
    var panel: Panel

    method Commit(b: Batch, reply: Reply) returns (r: Result<Ack>)
      modifies this
      ensures Outcome(panel, r) == Delivery.Commit(old(panel), b, reply)
    {
      var c := Delivery.Commit(panel, b, reply);
      panel := c.after;
      r := c.result;
    }
  }

  /** An inspection that shows the identity fenced, bound, completely tracked and idle. */
  predicate Quiet(status: Result<FenceStatus>, id: Identity, epoch: string) {
    && status.Ok? && status.value.epoch == epoch && status.value.identity == id
    && status.value.trackingReady && status.value.bindings >= 1 && status.value.rejectNew && status.value.outstanding == 0
  }

  /** `CounterSession.Inspect`: an uncertain session never reports tracking as ready. */
  function Inspected(status: FenceStatus, id: Identity, epoch: string, uncertain: bool): Result<FenceStatus> {
    if status.epoch != epoch || status.identity != id then Fail(ErrCoverage)
    else Ok(if uncertain then status.(trackingReady := false) else status)
  }

  /** What a drain handed `via` over the adapter state `a` is told about the identity. */
  function Seen(a: A.State, inner: string, id: Identity, epoch: string, via: Via): Result<FenceStatus> {
    var status := A.InspectTo(a, inner, id);
    match via
    case Bare => Ok(status)
    case Through(session) => Inspected(status, id, epoch, session.uncertain)
  }

  /** What the environment does in the course of one `Drain`: the identifier and time of
      the hold, the snapshots and commits it answers, the writes, and what other
      goroutines do to the adapter before the first and before the second inspection. */
  datatype DrainEnv = DrainEnv(
    hold: Write, leaseId: string, clock: G.Clock, before: seq<A.Step>, rows: Result<seq<Sample>>, first: Exchange, stage: Write,
    second: Exchange, during: seq<A.Step>, check: Result<seq<Sample>>, seal: Write)

  /** The adapter at the first inspection. */
  function AtFirst(a: A.State, id: Identity, env: DrainEnv): A.State { A.Run(A.FenceTo(a, id, env.leaseId, env.clock).0, env.before) }

  /** The first row of an identity. */
  function FirstOf(rows: seq<Sample>, id: Identity): Option<Sample> {
    if rows == [] then None else if rows[0].Id() == id then Some(rows[0]) else FirstOf(rows[1..], id)
  }

  /** What it takes to prove a drain that is on hold, from the state `a` of the adapter
      at the first inspection on: its row is there, the flush goes through, the identity
      is still quiet, its row has not moved, and the proof is saved. */
  ghost predicate ProveReady(n: Node, a: A.State, inner: string, r: DrainRequest, epoch: string, via: Via, env: DrainEnv) {
    && env.rows.Ok? && FirstOf(env.rows.value, r.identity).Some? && FlushReady(n, env.rows.value, env.first, env.stage, env.second)
    && Quiet(Seen(A.Run(a, env.during), inner, r.identity, epoch, via), r.identity, epoch)
    && env.check.Ok? && FirstOf(env.check.value, r.identity) == FirstOf(env.rows.value, r.identity) && env.seal == Saved
  }

  /** The request can be promised and its hold is on disk, the adapter takes the fence and
      then shows the identity quiet. */
  ghost predicate HoldReady(n: Node, a: A.State, inner: string, r: DrainRequest, epoch: string, via: Via, env: DrainEnv) {
    && !n.poisoned && CanReserve(n.state, r) && (r.id in n.state.drains || env.hold == Saved)
    && A.FenceTo(a, r.identity, env.leaseId, env.clock).1.Ok?
    && Quiet(Seen(AtFirst(a, r.identity, env), inner, r.identity, epoch, via), r.identity, epoch)
  }

  /** What a whole drain takes; one that is already proved only needs its final row to be
      there still. */
  ghost predicate DrainReady(n: Node, a: A.State, inner: string, r: DrainRequest, epoch: string, via: Via, env: DrainEnv) {
    && HoldReady(n, a, inner, r, epoch, via, env)
    && if IsProved(n.state, r.id) then env.rows.Ok? && ContainsFinal(env.rows.value, n.state.drains[r.id].proof.value.final)
       else ProveReady(n, AtFirst(a, r.identity, env), inner, r, epoch, via, env)
  }

  /** ... and a quiet inspection of it allows a proof and means that no flow is left. */
  lemma QuietMeans(a: A.Steady, inner: string, id: Identity, epoch: string, via: Via)
    requires Quiet(Seen(a, inner, id, epoch, via), id, epoch)
    ensures MayProve(via) && A.Hushed(a, id) && inner == epoch && (id in a.restored || A.Bound(a, id))
  {
    hide A.Inv, A.Hushed, A.Ready;
    A.InspectMeansSilent(a, inner, id);
    A.InspectKnows(a, inner, id);
  }

  // ---- the outbox ---------------------------------------------------------------

  class Outbox {
    const store: Store
    const receiver: Receiver
    const scope: string
    const epoch: string
    var state: Journal
    var poisoned: bool
    var legacy: bool
    ghost var live: Option<Live>
    ghost var segments: seq<Segment>

    ghost function View(): Sys
      reads this, store, receiver
    {
      Sys(scope, epoch, store.journal, Some(Node(state, poisoned, live)), receiver.panel, segments)
    }

    ghost predicate Valid()
      reads this, store, receiver
    {
      Inv(View())
    }

    /** The tail of a successful `Open`. */
    constructor (store: Store, receiver: Receiver, scope: string, epoch: string, state: Journal, legacy: bool, ghost segments: seq<Segment>)
      ensures this.store == store && this.receiver == receiver
      ensures View() == Sys(scope, epoch, store.journal, Some(Node(state, false, None)), receiver.panel, segments)
      ensures this.legacy == legacy
    {
      this.store, this.receiver, this.scope, this.epoch, this.state := store, receiver, scope, epoch, state;
      this.poisoned, this.legacy, this.live, this.segments := false, legacy, None, segments;
    }

    static method Open(store: Store, receiver: Receiver, scope: string, epoch: string, legacy: bool, ghost segments: seq<Segment>, w: Write)
      returns (r: Result<Outbox>)
      modifies store
      ensures var s := Start(Sys(scope, epoch, old(store.journal), None, receiver.panel, segments), w);
              && (r.Ok? <==> s.result.Ok?) && store.journal == s.after.disk
              && (r.Ok? ==> fresh(r.value) && r.value.store == store && r.value.receiver == receiver && r.value.View() == s.after)
      ensures r.Ok? && Inv(Sys(scope, epoch, old(store.journal), None, receiver.panel, segments)) ==> r.value.Valid()
      // a stored journal opens iff it is sound and of this very stream
      ensures old(store.journal).Some? ==> store.journal == old(store.journal) && (r.Ok? <==> Opening.Acceptable(old(store.journal).value, scope, epoch))
      ensures old(store.journal).None? ==> (r.Ok? <==> ValidScope(scope) && ValidHex(epoch, 16) && w.Saved?)
    {
      if store.journal.Some? { Opening.OpensExactly(store.journal.value, scope, epoch); }
      hide Opening.Acceptable;
      ghost var s := Sys(scope, epoch, store.journal, None, receiver.panel, segments);
      if Inv(s) { StartKeeps(s, w); }
      hide WellFormed, Backed, Reopen;
      if !ValidScope(scope) || !ValidHex(epoch, 16) {
        return Fail(ErrOther);
      }
      if store.journal.None? {
        var f := Fresh(scope, epoch);
        var ok := store.Save(f, w);
        if !ok {
          return Fail(ErrUncertain);
        }
        var o := new Outbox(store, receiver, scope, epoch, f, legacy, segments);
        return Ok(o);
      }
      var j := Reopen(store.journal.value, scope, epoch);
      if j.Fail? {
        return Fail(j.error);
      }
      var o := new Outbox(store, receiver, scope, epoch, j.value, legacy, segments);
      return Ok(o);
    }

    method Save(j: Journal, w: Write, ghost segs: seq<Segment>) returns (r: Result<()>)
      modifies this`state, this`poisoned, this`segments, store
      ensures Outcome(View(), r) == Delivery.Save(old(View()), j, segs, w)
    {
      if poisoned {
        return Fail(ErrUncertain);
      }
      var ok := store.Save(j, w);
      if w != FailedOld {
        segments := segs;
      }
      if !ok {
        poisoned := true;
        return Fail(ErrUncertain);
      }
      state := j;
      return Ok(());
    }

    method Replay(reply: Reply, w: Write) returns (r: Result<Option<Ack>>)
      modifies this`state, this`poisoned, this`segments, store, receiver
      ensures Outcome(View(), r) == Deliver(old(View()), reply, w)
    {
      if poisoned {
        return Fail(ErrUncertain);
      }
      if state.pending.None? {
        return Ok(None);
      }
      var b := state.pending.value.batch;
      var ack := receiver.Commit(b, reply);
      if ack.Fail? {
        return Fail(ack.error);
      }
      if ack.value != AckFor(b) {
        return Fail(ErrOther);
      }
      var s := state.(committed := state.pending.value.through, pending := None, lastAck := Some(ack.value), next := state.next + 1);
      var saved := Save(s, w, segments);
      if saved.Fail? {
        return Fail(saved.error);
      }
      return Ok(Some(ack.value));
    }

    /** `containsFinal` over all proved drains. */
    method FinalsKept(rows: seq<Sample>) returns (kept: bool)
      ensures kept <==> !(exists id :: id in state.drains && state.drains[id].proof.Some? && !ContainsFinal(rows, state.drains[id].proof.value.final))
    {
      var left := state.drains.Keys;
      while left != {}
        invariant left <= state.drains.Keys
        invariant forall id :: id in state.drains && id !in left && state.drains[id].proof.Some? ==> ContainsFinal(rows, state.drains[id].proof.value.final)
      {
        var id :| id in left;
        if state.drains[id].proof.Some? {
          var ok := HasFinal(rows, state.drains[id].proof.value.final);
          if !ok {
            return false;
          }
        }
        left := left - {id};
      }
      return true;
    }

    method StageBatch(totals: seq<Sample>, w: Write) returns (r: Result<()>)
      requires Idle(View()) && !IsSealed(state)
      modifies this`state, this`poisoned, this`segments, store
      ensures Outcome(View(), r) == Stage(old(View()), totals, w)
    {
      if state.next >= MAX_SEQUENCE {
        return Fail(ErrOther);
      }
      var after := CheckSamples(totals);
      if after.Fail? {
        return Fail(after.error);
      }
      var kept := FinalsKept(after.value);
      if !kept {
        return Fail(ErrPending);
      }
      var entries := ComputeDelta(state.committed, after.value);
      if entries.Fail? {
        return Fail(entries.error);
      }
      var b := Batch(1, state.scope, state.epoch, state.next, entries.value, Sha256(""));
      b := b.(digest := Hash(b));
      r := Save(state.(pending := Some(Pending(b, after.value))), w, segments);
    }

    method Flush(totals: seq<Sample>, first: Exchange, w: Write, second: Exchange) returns (r: Result<Option<Ack>>)
      requires Valid()
      modifies this`state, this`poisoned, this`segments, store, receiver
      ensures Valid() && Moves(old(View()), View())
      ensures Outcome(View(), r) == FlushTo(old(View()), totals, first, w, second)
    {
      FlushKeeps(View(), totals, first, w, second);
      hide WellFormed, Backed, Moves, Deliver, Stage;
      if state.session.Some? && state.session.value.isSealed {
        return Fail(ErrEpoch);
      }
      DeliverKeeps(View(), first.reply, first.write);
      if Deliver(View(), first.reply, first.write).result.Ok? { DeliverIdle(View(), first); }
      var replayed := Replay(first.reply, first.write);
      if replayed.Fail? {
        return Fail(replayed.error);
      }
      var staged := StageBatch(totals, w);
      if staged.Fail? {
        return Fail(staged.error);
      }
      r := Replay(second.reply, second.write);
    }

    method ProbeReady(r: DrainRequest, w: Write) returns (p: Result<()>)
      requires Valid()
      modifies this`state, this`poisoned, this`segments, store
      ensures Valid() && Moves(old(View()), View())
      ensures Outcome(View(), p) == Probe(old(View()), r, w)
      ensures p.Ok? ==> store.journal == Some(state) && Promised(state, r)
    {
      ProbeKeeps(View(), r, w);
      MovesBy(View(), DoProbe(r, w));
      hide WellFormed, Backed, Moves;
      if poisoned {
        return Fail(ErrUncertain);
      }
      var can := CheckCapacity(state, r);
      if !can {
        return Fail(ErrCoverage);
      }
      var s := state;
      if r.id !in s.drains {
        s := s.(reservations := s.reservations[r.id := r]);
      }
      p := Save(s, w, segments);
    }

    method RecordHold(r: DrainRequest, w: Write) returns (h: Result<()>)
      requires Valid()
      modifies this`state, this`poisoned, this`segments, store
      ensures Valid() && Moves(old(View()), View())
      ensures Outcome(View(), h) == Hold(old(View()), r, w)
    {
      HoldKeeps(View(), r, w);
      MovesBy(View(), DoHold(r, w));
      hide WellFormed, Backed, Moves;
      if poisoned {
        return Fail(ErrUncertain);
      }
      if !ValidRequest(r) {
        return Fail(ErrCoverage);
      }
      if r.id in state.drains {
        return if state.drains[r.id].request != r then Fail(ErrOther) else Ok(());
      }
      var can := CheckCapacity(state, r);
      if !can {
        return Fail(ErrCoverage);
      }
      h := Save(state.(drains := state.drains[r.id := DrainRecord(r, None)], reservations := state.reservations - {r.id}), w, segments);
    }

    method StoreProof(via: Via, r: DrainRequest, final: Sample, receipt: Ack, w: Write) returns (p: Result<DrainProof>)
      requires Valid() && Proving(View(), via, r, final, receipt)
      modifies this`state, this`poisoned, this`segments, store
      ensures Valid() && Moves(old(View()), View())
      ensures Outcome(View(), p) == Prove(old(View()), r, final, receipt, w)
    {
      ProveKeeps(View(), via, r, final, receipt, w);
      MovesBy(View(), DoProve(via, r, final, receipt, w));
      hide WellFormed, Backed, Moves;
      var proof := DrainProof(r, state.scope, state.epoch, final, receipt);
      var saved := Save(state.(drains := state.drains[r.id := DrainRecord(r, Some(proof))]), w, segments);
      if saved.Fail? {
        return Fail(saved.error);
      }
      return Ok(proof);
    }

    /** A snapshot flushed and acknowledged, with the row of the identity in it. */
    method FlushRow(totals: seq<Sample>, id: Identity, env: DrainEnv) returns (row: Result<Sample>)
      requires Valid()
      modifies this`state, this`poisoned, this`segments, store, receiver
      ensures Valid() && Moves(old(View()), View()) && SameHolds(old(View()), View())
      ensures row.Ok? <==> FirstOf(totals, id).Some? && FlushReady(old(View()).node.value, totals, env.first, env.stage, env.second)
      ensures row.Ok? ==> row.value == FirstOf(totals, id).value
      ensures row.Ok? ==>
                && !poisoned && state.pending.None? && state.lastAck.Some? && Samples(totals) == Ok(state.committed)
                && row.value in totals && row.value.Id() == id && Holds(state.committed, row.value)
    {
      hide WellFormed, Backed, Moves, Samples, Holds, FlushReady;
      MovesNot(View());
      FlushExactly(View(), totals, env.first, env.stage, env.second);
      var final := FirstRow(totals, id);
      if final.None? {
        return Fail(ErrOther);
      }
      ghost var s := View();
      if FlushTo(s, totals, env.first, env.stage, env.second).result.Ok? { FlushCommits(s, totals, env.first, env.stage, env.second); }
      FlushDrains(s, totals, env.first, env.stage, env.second);
      var ack := Flush(totals, env.first, env.stage, env.second);
      if ack.Fail? {
        return Fail(ack.error);
      }
      RowHeld(totals, state.committed, final.value);
      return Ok(final.value);
    }

    /** Lets the others act on the adapter, then inspects the identity. */
    method Look(inner: A.GuardAdapter, via: Via, id: Identity, others: seq<A.Step>) returns (status: Result<FenceStatus>)
      requires A.Inv(inner.View()) && inner.tag != ""
      modifies inner, inner.guard
      ensures inner.View() == A.Run(old(inner.View()), others) && A.Inv(inner.View())
      ensures status == Seen(inner.View(), inner.epoch, id, epoch, via)
      ensures Quiet(status, id, epoch) ==> MayProve(via) && A.Hushed(inner.View(), id)
    {
      hide A.Inv, A.Run, A.Hushed;
      A.RunKeeps(inner.View(), others);
      inner.Elapse(others);
      var s := inner.Inspect(id);
      status := match via case Bare => Ok(s) case Through(session) => Inspected(s, id, epoch, session.uncertain);
      if Quiet(status, id, epoch) { QuietMeans(inner.View(), inner.epoch, id, epoch, via); }
    }

    /** The part of `Drain` after a quiet inspection, for a drain not yet proved. */
    method ProveDrain(r: DrainRequest, inner: A.GuardAdapter, via: Via, env: DrainEnv) returns (p: Result<DrainProof>)
      requires Valid() && !poisoned && r.id in state.drains && state.drains[r.id] == DrainRecord(r, None)
      requires A.Inv(inner.View()) && inner.tag != ""
      modifies this`state, this`poisoned, this`segments, store, receiver, inner, inner.guard
      ensures Valid() && Moves(old(View()), View()) && A.Inv(inner.View())
      ensures p.Ok? ==>
                && !poisoned && state.drains == old(state).drains[r.id := DrainRecord(r, Some(p.value))]
                && p.value == DrainProof(r, state.scope, state.epoch, p.value.final, p.value.receipt) && state.lastAck == Some(p.value.receipt)
                && env.rows.Ok? && p.value.final in env.rows.value && Samples(env.rows.value) == Ok(state.committed) && state.pending.None?
                && env.check.Ok? && p.value.final in env.check.value && p.value.final.Id() == r.identity
      ensures p.Ok? ==>
                && inner.View() == A.Run(old(inner.View()), env.during)
                && Quiet(Seen(inner.View(), inner.epoch, r.identity, epoch, via), r.identity, epoch) && A.Hushed(inner.View(), r.identity)
      ensures p.Ok? <==> ProveReady(old(View()).node.value, old(inner.View()), inner.epoch, r, epoch, via, env)
      ensures p.Fail? ==> state.drains == old(state).drains
      ensures state.session == old(state).session
    {
      hide WellFormed, Backed, Moves, Samples, Holds, A.Inv, A.Hushed, A.Run, Seen, FlushReady;
      MovesNot(View());
      ghost var s := View();
      if env.rows.Fail? {
        return Fail(env.rows.error);
      }
      var final := FlushRow(env.rows.value, r.identity, env);
      if final.Fail? {
        return Fail(final.error);
      }
      ghost var t := View();
      var looked := Look(inner, via, r.identity, env.during);
      if looked.Fail? {
        return Fail(looked.error);
      }
      var status := looked.value;
      EpochKept(View());
      if status.epoch != state.epoch || status.identity != r.identity || !status.trackingReady || status.bindings < 1 || !status.rejectNew || status.outstanding != 0 {
        return Fail(ErrPending);
      }
      if env.check.Fail? {
        return Fail(env.check.error);
      }
      var row := FirstRow(env.check.value, r.identity);
      if row != Some(final.value) {
        return Fail(ErrPending);
      }
      p := StoreProof(via, r, final.value, state.lastAck.value, env.seal);
      MovesOn(s, t, View());
    }

    /** The hold, the fence and the first inspection. */
    method HoldAndLook(r: DrainRequest, inner: A.GuardAdapter, via: Via, env: DrainEnv) returns (q: Result<()>)
      requires Valid() && A.Inv(inner.View()) && inner.tag != ""
      modifies this`state, this`poisoned, this`segments, store, inner, inner.guard
      ensures Valid() && Moves(old(View()), View()) && A.Inv(inner.View())
      ensures inner.View() != old(inner.View()) ==>
                store.journal.Some? && r.id in store.journal.value.drains && store.journal.value.drains[r.id].request == r
      ensures q.Ok? <==> HoldReady(old(View()).node.value, old(inner.View()), inner.epoch, r, epoch, via, env)
      ensures q.Ok? ==>
                && !poisoned && store.journal == Some(state) && r.id in state.drains && state.drains[r.id].request == r
                && inner.View() == AtFirst(old(inner.View()), r.identity, env) && A.Hushed(inner.View(), r.identity)
                && Quiet(Seen(inner.View(), inner.epoch, r.identity, epoch, via), r.identity, epoch)
                && (IsProved(old(state), r.id) <==> IsProved(state, r.id)) && (IsProved(old(state), r.id) ==> View() == old(View()))
                && (!IsProved(state, r.id) && env.rows.Ok? ==>
                      (FlushReady(View().node.value, env.rows.value, env.first, env.stage, env.second)
                       <==> FlushReady(old(View()).node.value, env.rows.value, env.first, env.stage, env.second)))
      ensures state.session == old(state).session && forall id :: IsProved(state, id) ==> IsProved(old(state), id)
    {
      hide WellFormed, Backed, Moves, A.Inv, A.Hushed, A.Run, Seen, A.FenceTo, Samples, FlushReady;
      ghost var s := View();
      HoldNode(s, r, env.hold);
      HoldExactly(s, r, env);
      hide CanReserve;
      var held := RecordHold(r, env.hold);
      if held.Fail? {
        return Fail(held.error);
      }
      A.FenceKeeps(inner.View(), r.identity, env.leaseId, env.clock);
      var fenced := inner.Fence(r.identity, env.leaseId, env.clock);
      if fenced.Fail? {
        return Fail(fenced.error);
      }
      var looked := Look(inner, via, r.identity, env.before);
      if looked.Fail? {
        return Fail(looked.error);
      }
      var status := looked.value;
      EpochKept(View());
      if status.epoch != state.epoch {
        return Fail(ErrEpoch);
      }
      if status.identity != r.identity || !status.trackingReady || status.bindings < 1 || status.outstanding < 0 {
        return Fail(ErrCoverage);
      }
      if !status.rejectNew || status.outstanding != 0 {
        return Fail(ErrPending);
      }
      return Ok(());
    }

    /** `Drain` over an adapter, or over a counter session above it. */
    method Drain(r: DrainRequest, inner: A.GuardAdapter, via: Via, env: DrainEnv) returns (p: Result<DrainProof>)
      requires Valid() && A.Inv(inner.View()) && inner.tag != ""
      modifies this`state, this`poisoned, this`segments, store, receiver, inner, inner.guard
      ensures Valid() && Moves(old(View()), View()) && A.Inv(inner.View())
      // the adapter is told nothing before the hold is on disk
      ensures inner.View() != old(inner.View()) ==>
                store.journal.Some? && r.id in store.journal.value.drains && store.journal.value.drains[r.id].request == r
      // a proof is on disk and follows a quiet inspection; no flow of the identity is left
      ensures p.Ok? ==> !poisoned && store.journal == Some(state) && r.id in state.drains && state.drains[r.id] == DrainRecord(r, Some(p.value))
      ensures p.Ok? ==> Quiet(Seen(AtFirst(old(inner.View()), r.identity, env), inner.epoch, r.identity, epoch, via), r.identity, epoch)
      ensures p.Ok? ==> A.Hushed(inner.View(), r.identity) && env.rows.Ok?
      // a new one also precedes a quiet inspection, and is stable and acknowledged
      ensures p.Ok? && !IsProved(old(state), r.id) ==>
                && inner.View() == A.Run(AtFirst(old(inner.View()), r.identity, env), env.during)
                && Quiet(Seen(inner.View(), inner.epoch, r.identity, epoch, via), r.identity, epoch)
                && state.pending.None? && state.lastAck == Some(p.value.receipt)
                && p.value.final in env.rows.value && Samples(env.rows.value) == Ok(state.committed)
                && env.check.Ok? && p.value.final in env.check.value && p.value.final.Id() == r.identity
      // an old one is returned only while the counters still show it
      ensures p.Ok? && IsProved(old(state), r.id) ==>
                View() == old(View()) && ContainsFinal(env.rows.value, p.value.final)
      // a drain that is ready is proved
      ensures p.Ok? <==> DrainReady(old(View()).node.value, old(inner.View()), inner.epoch, r, epoch, via, env)
      // nothing else is proved, and the session stays
      ensures state.session == old(state).session
      ensures forall id :: IsProved(state, id) ==> IsProved(old(state), id) || (id == r.id && p.Ok?)
    {
      hide WellFormed, Backed, Moves, A.Inv, A.Hushed, A.Run, Seen, Samples, FlushReady, HoldReady;
      ghost var s := View();
      var held := HoldAndLook(r, inner, via, env);
      ghost var h := View();
      if held.Fail? {
        return Fail(held.error);
      }
      var d := state.drains[r.id];
      if d.proof.Some? {
        if env.rows.Fail? {
          return Fail(env.rows.error);
        }
        var same := HasFinal(env.rows.value, d.proof.value.final);
        if !same {
          return Fail(ErrPending);
        }
        return Ok(d.proof.value);
      }
      p := ProveDrain(r, inner, via, env);
      MovesHeld(h, View(), r.id);
      MovesOn(s, h, View());
    }

    /** `flushLegacySeal`: nothing is sent again when exactly these totals are
        already acknowledged. */
    method FlushLegacySeal(rows: seq<Sample>, zeroth: Exchange, first: Exchange, w: Write, second: Exchange) returns (r: Result<()>)
      requires Valid() && Canonical(rows)
      modifies this`state, this`poisoned, this`segments, store, receiver
      ensures Valid() && Moves(old(View()), View())
      ensures SameHolds(old(View()), View()) && segments == old(segments)
      ensures r.Ok? ==> !poisoned && state.committed == rows && state.pending.None? && state.lastAck.Some?
      ensures r.Ok? <==> SealFlushReady(old(View()).node.value, rows, zeroth, w, second)
    {
      hide WellFormed, Backed, Moves, Canonical;
      ghost var s := View();
      DeliverExactly(s, zeroth);
      DeliverKeeps(s, zeroth.reply, zeroth.write);
      DeliverHolds(s, zeroth);
      SegmentsSame(s, zeroth);
      if Deliver(s, zeroth.reply, zeroth.write).result.Ok? { DeliverIdle(s, zeroth); }
      MovesBy(s, DoDeliver(zeroth.reply, zeroth.write));
      var replayed := Replay(zeroth.reply, zeroth.write);
      ghost var t := View();
      assert t == Next(s, DoDeliver(zeroth.reply, zeroth.write));
      if replayed.Fail? {
        return Fail(replayed.error);
      }
      if state.lastAck.Some? && rows == state.committed {
        return Ok(());
      }
      SameReport(s.node.value.state, state, rows);
      FlushExactly(t, rows, first, w, second);
      hide Reportable;
      FlushDrains(t, rows, first, w, second);
      FlushSegments(t, rows, first, w, second);
      if FlushTo(t, rows, first, w, second).result.Ok? { FlushCommits(t, rows, first, w, second); }
      var ack := Flush(rows, first, w, second);
      MovesOn(s, t, View());
      if ack.Fail? {
        return Fail(ack.error);
      }
      SamplesOfCanonical(rows);
      return Ok(());
    }

    /** The final save of `Seal`. */
    method SaveSealed(process: string, ghost raw: seq<Sample>, w: Write) returns (r: Result<()>)
      requires Valid() && Sealing(View(), process, raw)
      modifies this`state, this`poisoned, this`segments, store
      ensures Valid() && Moves(old(View()), View())
      ensures Outcome(View(), r) == SealUp(old(View()), raw, w)
    {
      hide WellFormed, Backed, Moves, Canonical, Combine, Sealing;
      SealMoves(View(), process, raw, w);
      r := Save(state.(session := Some(state.session.value.(isSealed := true))), w, segments + [Segment(raw, true)]);
    }

    /** `FlushLegacy`: rows whose change stays within the threshold are held back
        at what had been committed before; all others are committed in full. */
    method FlushLegacy(totals: seq<Sample>, threshold: Int64, zeroth: Exchange, first: Exchange, w: Write, second: Exchange) returns (r: Result<Option<Ack>>)
      requires Valid()
      modifies this`state, this`poisoned, this`segments, store, receiver
      ensures Valid() && Moves(old(View()), View())
      ensures r.Ok? ==> !poisoned && state.pending.None? && Samples(totals).Ok? && Index(state.committed).Keys == Index(totals).Keys
      ensures r.Ok? ==> forall id :: At(Index(state.committed), id) == Thresholded(At(Index(totals), id), At(Index(Acknowledged(old(state))), id), threshold)
      ensures r.Ok? ==> forall id ::
                var total, prior, committed := At(Index(totals), id), At(Index(Acknowledged(old(state))), id), At(Index(state.committed), id);
                committed == if Residue(total, prior) <= threshold then prior else total
      ensures (!legacy || threshold < 0) ==> r.Fail? && View() == old(View())
      ensures r.Ok? <==> legacy && threshold >= 0 && LegacyReady(old(View()).node.value, totals, threshold, zeroth, w, second)
    {
      hide WellFormed, Backed, Moves;
      ghost var s := View();
      MovesNot(s);
      DeliverExactly(s, zeroth);
      if !legacy || threshold < 0 {
        return Fail(ErrOther);
      }
      DeliverKeeps(s, zeroth.reply, zeroth.write);
      if Deliver(s, zeroth.reply, zeroth.write).result.Ok? { DeliverIdle(s, zeroth); }
      assert Next(s, DoDeliver(zeroth.reply, zeroth.write)) == Deliver(s, zeroth.reply, zeroth.write).after;
      MovesBy(s, DoDeliver(zeroth.reply, zeroth.write));
      var replayed := Replay(zeroth.reply, zeroth.write);
      if replayed.Fail? {
        return Fail(replayed.error);
      }
      ghost var t := View();
      CommittedCanonical(t);
      assert state.committed == Acknowledged(s.node.value.state);
      LegacyRowsExactly(state.committed, totals);
      hide LegacyReady, FlushReady, Reportable, Opening.Inventory;
      if !(Opening.Inventory(totals) && Covers(Index(state.committed), Index(totals))) { NotLegacyReady(s.node.value, totals, threshold, zeroth, w, second); }
      var rows := LegacyRows(state.committed, totals, threshold);
      if rows.Fail? {
        return Fail(rows.error);
      }
      FlushExactly(t, rows.value, first, w, second);
      LegacyFlush(s, t, totals, rows.value, threshold, zeroth, first, w, second);
      if FlushTo(t, rows.value, first, w, second).result.Ok? { FlushCommits(t, rows.value, first, w, second); }
      r := Flush(rows.value, first, w, second);
      MovesOn(s, t, View());
      if r.Ok? {
        SamplesOfCanonical(rows.value);
        forall id ensures At(Index(state.committed), id) ==
                            if Residue(At(Index(totals), id), At(Index(Acknowledged(s.node.value.state)), id)) <= threshold then At(Index(Acknowledged(s.node.value.state)), id) else At(Index(totals), id) {
          LegacyResidue(At(Index(totals), id), At(Index(Acknowledged(s.node.value.state)), id), threshold);
        }
      }
    }
  }

  lemma SealMoves(s: Good, process: string, raw: seq<Sample>, w: Write)
    requires Sealing(s, process, raw)
    ensures s.node.Some? && s.node.value.state.session.Some?
    ensures Inv(SealUp(s, raw, w).after) && Moves(s, SealUp(s, raw, w).after)
  {
    hide WellFormed, Backed, Moves, Canonical, Combine, Sealing, Next, Inv;
    SealKeeps(s, process, raw, w);
    SealStep(s, process, raw, w);
    MovesBy(s, DoSeal(process, raw, w));
  }

  lemma SealStep(s: Sys, process: string, raw: seq<Sample>, w: Write)
    requires Sealing(s, process, raw)
    ensures s.node.Some? && s.node.value.state.session.Some?
    ensures Next(s, DoSeal(process, raw, w)) == SealUp(s, raw, w).after
  {
    hide Canonical, Combine;
  }

  lemma EpochKept(s: Good)
    requires s.node.Some? && !s.node.value.poisoned
    ensures s.node.value.state.epoch == s.epoch && s.disk == Some(s.node.value.state)
  {
    hide WellFormed, Backed;
  }

  lemma CommittedCanonical(s: Good)
    requires Idle(s)
    ensures Canonical(s.node.value.state.committed)
  {
  }

  /** A hold is taken exactly when the request can be promised and the hold is on disk; it
      does not matter to a later flush. */
  lemma HoldExactly(s: Good, r: DrainRequest, env: DrainEnv)
    requires s.node.Some?
    ensures var h, n := Hold(s, r, env.hold), s.node.value;
            && (h.result.Ok? <==> !n.poisoned && CanReserve(n.state, r) && (r.id in n.state.drains || env.hold == Saved))
            && (h.result.Ok? && !IsProved(n.state, r.id) && env.rows.Ok? ==>
                  (FlushReady(h.after.node.value, env.rows.value, env.first, env.stage, env.second) <==> FlushReady(n, env.rows.value, env.first, env.stage, env.second)))
  {
    var h, n := Hold(s, r, env.hold), s.node.value;
    assert h.result.Ok? <==> !n.poisoned && CanReserve(n.state, r) && (r.id in n.state.drains || env.hold == Saved) by { hide WellFormed, Backed, FlushReady; }
    if h.result.Ok? && !IsProved(n.state, r.id) && env.rows.Ok? && r.id !in n.state.drains {
      hide WellFormed, Backed, CanReserve;
      HeldReport(n.state, r, env.rows.value);
      hide Reportable;
    }
  }

  lemma HeldReport(j: Journal, r: DrainRequest, totals: seq<Sample>)
    requires r.id !in j.drains
    ensures Reportable(Held(j, r), Acknowledged(j), totals) <==> Reportable(j, Acknowledged(j), totals)
  {
    hide Opening.Inventory, Covers, Holds, Index;
    var h := Held(j, r);
    assert forall id :: IsProved(h, id) <==> IsProved(j, id);
    assert forall id :: IsProved(j, id) ==> h.drains[id] == j.drains[id];
  }

  lemma HoldNode(s: Good, r: DrainRequest, w: Write)
    requires s.node.Some?
    ensures var h := Hold(s, r, w);
            && h.after.node.Some? && h.after.node.value.live == s.node.value.live && h.after.node.value.state.session == s.node.value.state.session
            && (forall id :: IsProved(h.after.node.value.state, id) ==> IsProved(s.node.value.state, id))
            && (h.result.Ok? ==>
                  && !h.after.node.value.poisoned && h.after.disk == Some(h.after.node.value.state)
                  && r.id in h.after.node.value.state.drains && h.after.node.value.state.drains[r.id].request == r
                  && (IsProved(s.node.value.state, r.id) <==> IsProved(h.after.node.value.state, r.id))
                  && (IsProved(s.node.value.state, r.id) ==> h.after == s))
  {
    hide WellFormed, Backed, CanReserve;
  }

  ghost predicate SameHolds(s: Sys, t: Sys)
    requires s.node.Some?
  {
    && t.node.Some? && t.node.value.state.drains == s.node.value.state.drains
    && t.node.value.state.session == s.node.value.state.session && t.node.value.live == s.node.value.live
  }

  lemma DeliverHolds(s: Sys, x: Exchange)
    requires s.node.Some?
    ensures SameHolds(s, Deliver(s, x.reply, x.write).after)
  {
    hide Commit;
  }

  lemma StageHolds(s: Sys, totals: seq<Sample>, w: Write)
    requires Idle(s) && !IsSealed(s.node.value.state)
    ensures SameHolds(s, Stage(s, totals, w).after)
  {
    if Staged(s.node.value.state, totals).Ok? { StagedThrough(s.node.value.state, totals); }
    hide Staged;
  }

  /** A flush leaves drains and session alone, whatever its result. */
  lemma FlushDrains(s: Good, totals: seq<Sample>, first: Exchange, w: Write, second: Exchange)
    requires s.node.Some?
    ensures SameHolds(s, FlushTo(s, totals, first, w, second).after)
  {
    hide WellFormed, Backed, Deliver, Stage;
    if !IsSealed(s.node.value.state) {
      var d := Deliver(s, first.reply, first.write);
      DeliverHolds(s, first);
      if d.result.Ok? {
        DeliverIdle(s, first);
        StageHolds(d.after, totals, w);
        DeliverHolds(Stage(d.after, totals, w).after, second);
      }
    }
  }

  lemma FlushSegments(s: Good, totals: seq<Sample>, first: Exchange, w: Write, second: Exchange)
    requires s.node.Some?
    ensures FlushTo(s, totals, first, w, second).after.segments == s.segments
  {
    hide WellFormed, Backed, Deliver, Stage;
    if !IsSealed(s.node.value.state) {
      var d := Deliver(s, first.reply, first.write);
      SegmentsSame(s, first);
      if d.result.Ok? {
        DeliverIdle(s, first);
        StageHolds(d.after, totals, w);
        StageSegments(d.after, totals, w);
        SegmentsSame(Stage(d.after, totals, w).after, second);
      }
    }
  }

  lemma StageSegments(s: Sys, totals: seq<Sample>, w: Write)
    requires Idle(s) && !IsSealed(s.node.value.state)
    ensures Stage(s, totals, w).after.segments == s.segments
  {
    hide Staged;
  }

  lemma RowHeld(totals: seq<Sample>, rows: seq<Sample>, final: Sample)
    requires Samples(totals) == Ok(rows) && final in totals
    ensures Holds(rows, final)
  {
    SamplesSpec(totals, rows);
    OrderedDistinct(rows);
    assert final in multiset(rows);
    var i :| 0 <= i < |rows| && rows[i] == final;
    IndexRow(rows, i);
  }

  method FirstRow(rows: seq<Sample>, id: Identity) returns (r: Option<Sample>)
    ensures r == FirstOf(rows, id)
    ensures r.Some? ==> r.value in rows && r.value.Id() == id
    ensures r.None? ==> forall i :: 0 <= i < |rows| ==> rows[i].Id() != id
  {
    for i := 0 to |rows|
      invariant forall k :: 0 <= k < i ==> rows[k].Id() != id
      invariant FirstOf(rows[i..], id) == FirstOf(rows, id)
    {
      assert rows[i..][1..] == rows[i + 1..];
      if rows[i].uid == id.uid && rows[i].credential == id.credential {
        return Some(rows[i]);
      }
    }
    return None;
  }

  // ---- the legacy threshold --------------------------------------------------------

  lemma SamplesIndex(totals: seq<Sample>)
    requires Samples(totals).Ok?
    ensures Index(Samples(totals).value) == Index(totals)
  {
    SamplesSpec(totals, Samples(totals).value);
    IndexPermuted(totals, Samples(totals).value);
  }

  /** What a replay leaves committed. */
  function Acknowledged(j: Journal): seq<Sample> { if j.pending.Some? then j.pending.value.through else j.committed }

  /** A change of at most `threshold` bytes in both directions together waits. */
  function Thresholded(total: Usage, prior: Usage, threshold: int): Usage {
    if (total.up - prior.up) + (total.down - prior.down) <= threshold then prior else total
  }

  /** What a committed row still lacks, both directions together. */
  function Residue(total: Usage, committed: Usage): int { (total.up - committed.up) + (total.down - committed.down) }

  /** After a successful legacy flush every identity is committed in full or has a
      residue of at most the threshold; nothing that was committed is taken back. */
  lemma LegacyResidue(total: Usage, prior: Usage, threshold: int)
    ensures var c := Thresholded(total, prior, threshold);
            && c == (if Residue(total, prior) <= threshold then prior else total)
            && (c == total || Residue(total, c) <= threshold)
            && (prior.Within(total) ==> prior.Within(c) && c.Within(total))
  {
  }

  /** What a legacy flush needs: as a flush, but of a proved drain the usage may have
      grown by up to the threshold, which is then held back. */
  ghost predicate LegacyReady(n: Node, totals: seq<Sample>, threshold: int, zeroth: Exchange, w: Write, second: Exchange) {
    && !n.poisoned && !IsSealed(n.state) && (n.state.pending.Some? ==> Done(zeroth)) && w == Saved && Done(second)
    && (if n.state.pending.Some? then n.state.next + 1 else n.state.next) < MAX_SEQUENCE
    && Opening.Inventory(totals) && Covers(Index(Acknowledged(n.state)), Index(totals))
    && forall id :: IsProved(n.state, id) ==>
         var final := n.state.drains[id].proof.value.final;
         Thresholded(At(Index(totals), final.Id()), final.Used(), threshold) == final.Used()
  }

  /** The rows held back are reportable exactly when no proved drain has grown by more
      than the threshold. */
  lemma HeldBackReport(j: Sound, totals: seq<Sample>, rows: seq<Sample>, threshold: int)
    requires Opening.Inventory(totals) && Covers(Index(j.committed), Index(totals)) && Canonical(rows) && Index(rows).Keys == Index(totals).Keys
    requires forall id :: At(Index(rows), id) == Thresholded(At(Index(totals), id), At(Index(j.committed), id), threshold)
    ensures Reportable(j, j.committed, rows) <==>
            forall id :: IsProved(j, id) ==>
              var final := j.drains[id].proof.value.final;
              Thresholded(At(Index(totals), final.Id()), final.Used(), threshold) == final.Used()
  {
    assert Opening.Inventory(rows) by { OrderedDistinct(rows); }
    forall id | id in Index(j.committed) ensures id in Index(rows) && Index(j.committed)[id].Within(Index(rows)[id]) {
      assert At(Index(rows), id) == Thresholded(At(Index(totals), id), At(Index(j.committed), id), threshold);
    }
    assert Covers(Index(j.committed), Index(rows));
    forall id | IsProved(j, id) ensures var final := j.drains[id].proof.value.final; Holds(rows, final) <==> Thresholded(At(Index(totals), final.Id()), final.Used(), threshold) == final.Used() {
      var final := j.drains[id].proof.value.final;
      assert DrainOk(id, j.drains[id], j) && Holds(j.committed, final);
      assert At(Index(rows), final.Id()) == Thresholded(At(Index(totals), final.Id()), At(Index(j.committed), final.Id()), threshold);
    }
    hide WellFormed, Index, Canonical, Opening.Inventory, Thresholded, Covers, Holds;
  }

  lemma NotLegacyReady(n: Node, totals: seq<Sample>, threshold: int, zeroth: Exchange, w: Write, second: Exchange)
    requires !(Opening.Inventory(totals) && Covers(Index(Acknowledged(n.state)), Index(totals)))
    ensures !LegacyReady(n, totals, threshold, zeroth, w, second)
  {
    hide Opening.Inventory, Covers, Index;
  }

  lemma LegacyRowsExactly(before: seq<Sample>, totals: seq<Sample>)
    requires Canonical(before)
    ensures ValidRows(before) && (Samples(totals).Ok? && Delta(before, Samples(totals).value).Ok? <==> Opening.Inventory(totals) && Covers(Index(before), Index(totals)))
  {
    Opening.InventoryExactly(totals);
    if Samples(totals).Ok? {
      SamplesCanonical(totals);
      SamplesIndex(totals);
      DeltaSpec(before, Samples(totals).value);
    }
    hide Samples, Delta, Index, Covers, Opening.Inventory;
  }

  /** After the replay a flush of the rows held back is ready exactly when the legacy
      flush was. */
  lemma LegacyFlush(s: Good, t: Good, totals: seq<Sample>, rows: seq<Sample>, threshold: int, zeroth: Exchange, first: Exchange, w: Write, second: Exchange)
    requires s.node.Some? && !s.node.value.poisoned && (s.node.value.state.pending.None? || Done(zeroth)) && Idle(t) && !t.node.value.poisoned
    requires var j, k := s.node.value.state, t.node.value.state;
             && k.committed == Acknowledged(j) && k.drains == j.drains && k.session == j.session && k.next == (if j.pending.Some? then j.next + 1 else j.next)
             && Opening.Inventory(totals) && Covers(Index(k.committed), Index(totals)) && Canonical(rows) && Index(rows).Keys == Index(totals).Keys
             && forall id :: At(Index(rows), id) == Thresholded(At(Index(totals), id), At(Index(k.committed), id), threshold)
    ensures FlushReady(t.node.value, rows, first, w, second) <==> LegacyReady(s.node.value, totals, threshold, zeroth, w, second)
  {
    var j, k := s.node.value.state, t.node.value.state;
    assert t.disk == Some(k) by { hide WellFormed, Backed; }
    HeldBackReport(t.disk.value, totals, rows, threshold);
    hide WellFormed, Backed, Reportable, Opening.Inventory, Covers, Canonical, Index, Thresholded;
    assert forall id :: IsProved(j, id) <==> IsProved(k, id);
  }

  /** The loop of `FlushLegacy` that rewrites the rows in place. */
  method HoldBackRows(before: seq<Sample>, after: seq<Sample>, changes: seq<Sample>, threshold: Int64) returns (rows: seq<Sample>)
    requires Canonical(before) && Canonical(after) && Delta(before, after) == Ok(changes)
    ensures |rows| == |after|
    ensures forall i :: 0 <= i < |after| ==>
              rows[i].Id() == after[i].Id() && rows[i].Used() == Thresholded(after[i].Used(), At(Index(before), after[i].Id()), threshold)
  {
    CanonicalIndex(before);
    CanonicalIndex(after);
    DeltaRows(Index(before), after);
    hide Canonical, Delta, DeltaFrom, DistinctIds;
    var prior: map<Identity, Usage> := map[];
    for i := 0 to |before|
      invariant prior == Index(before[..i])
    {
      assert before[..i + 1][..i] == before[..i];
      prior := prior[before[i].Id() := before[i].Used()];
    }
    assert before[..|before|] == before;
    rows := after;
    for i := 0 to |changes|
      invariant |rows| == |after|
      invariant forall k :: i <= k < |after| ==> rows[k] == after[k]
      invariant forall k :: 0 <= k < i ==>
                  rows[k].Id() == after[k].Id() && rows[k].Used() == Thresholded(after[k].Used(), At(Index(before), after[k].Id()), threshold)
    {
      var p := At(prior, changes[i].Id());
      assert changes[i] == Reduced(after[i], p);
      if changes[i].upload <= threshold && changes[i].download <= threshold - changes[i].upload {
        rows := rows[i := Sample(rows[i].uid, rows[i].credential, p.up, p.down)];
      }
    }
  }

  /** Holding rows back keeps the inventory canonical. */
  lemma HeldBackIndex(before: seq<Sample>, after: seq<Sample>, rows: seq<Sample>, threshold: int)
    requires Canonical(before) && Canonical(after) && Covers(Index(before), Index(after)) && |rows| == |after|
    requires forall i :: 0 <= i < |after| ==>
               rows[i].Id() == after[i].Id() && rows[i].Used() == Thresholded(after[i].Used(), At(Index(before), after[i].Id()), threshold)
    ensures Canonical(rows) && Index(rows).Keys == Index(after).Keys
    ensures forall id :: At(Index(rows), id) == Thresholded(At(Index(after), id), At(Index(before), id), threshold)
  {
    hide Index, Canonical, DistinctIds, Covers, Thresholded;
    CanonicalIndex(before);
    CanonicalIndex(after);
    HeldBackValid(before, after, rows, threshold);
    DeltaCanonical(after, rows);
    forall id ensures At(Index(rows), id) == Thresholded(At(Index(after), id), At(Index(before), id), threshold) {
      if id in Index(after) {
        var i := IndexOf(after, id);
        IndexRow(rows, i);
      } else {
        AbsentBefore(Index(before), Index(after), id, threshold);
      }
    }
  }

  lemma AbsentBefore(before: map<Identity, Usage>, after: map<Identity, Usage>, id: Identity, threshold: int)
    requires Covers(before, after) && id !in after
    ensures Thresholded(At(after, id), At(before, id), threshold) == ZERO
  {
  }

  lemma HeldBackValid(before: seq<Sample>, after: seq<Sample>, rows: seq<Sample>, threshold: int)
    requires Canonical(after) && NonNegative(Index(before)) && |rows| == |after|
    requires forall i :: 0 <= i < |after| ==>
               rows[i].Id() == after[i].Id() && rows[i].Used() == Thresholded(after[i].Used(), At(Index(before), after[i].Id()), threshold)
    ensures ValidRows(rows)
  {
    hide Index, Ordered, ValidHex;
    forall i | 0 <= i < |rows| ensures ValidRow(rows[i]) {
      assert ValidRow(after[i]) && rows[i].Id() == after[i].Id();
      assert ZERO.Within(At(Index(before), after[i].Id()));
    }
  }

  method LegacyRows(before: seq<Sample>, totals: seq<Sample>, threshold: Int64) returns (r: Result<seq<Sample>>)
    requires Canonical(before)
    ensures r.Ok? <==> Samples(totals).Ok? && Delta(before, Samples(totals).value).Ok?
    ensures r.Ok? ==> Canonical(r.value) && Index(r.value).Keys == Index(totals).Keys
    ensures r.Ok? ==> forall id :: At(Index(r.value), id) == Thresholded(At(Index(totals), id), At(Index(before), id), threshold)
  {
    var after := CheckSamples(totals);
    if after.Fail? {
      return Fail(after.error);
    }
    var changes := ComputeDelta(before, after.value);
    if changes.Fail? {
      return Fail(changes.error);
    }
    SamplesCanonical(totals);
    SamplesIndex(totals);
    DeltaSpec(before, after.value);
    hide Canonical, Samples, Delta, Index;
    var rows := HoldBackRows(before, after.value, changes.value, threshold);
    HeldBackIndex(before, after.value, rows, threshold);
    return Ok(rows);
  }

  method HasFinal(rows: seq<Sample>, final: Sample) returns (r: bool)
    ensures r <==> ContainsFinal(rows, final)
  {
    var found := 0;
    for i := 0 to |rows|
      invariant forall k :: 0 <= k < i && rows[k].Id() == final.Id() ==> rows[k] == final
      invariant found == multiset(rows[..i])[final]
    {
      assert rows[..i + 1] == rows[..i] + [rows[i]];
      if rows[i].uid == final.uid && rows[i].credential == final.credential {
        if rows[i] != final {
          return false;
        }
        found := found + 1;
      }
    }
    assert rows[..|rows|] == rows;
    return found == 1;
  }

  /** The loops of `validateReservations`, over one set of identities seen so far. */
  method CheckReservations(j: Journal) returns (ok: bool)
    ensures ok <==> ReservationsOk(j)
  {
    if |j.drains| + |j.reservations| > MAX_DRAINS {
      return false;
    }
    var seen: set<Identity> := {};
    var left := j.drains.Keys;
    while left != {}
      invariant left <= j.drains.Keys
      invariant forall a :: a in j.drains && a !in left ==> j.drains[a].request.identity in seen
      invariant forall i :: i in seen ==> exists a :: a in j.drains && a !in left && j.drains[a].request.identity == i
      invariant forall a, b :: a in j.drains && b in j.drains && a !in left && b !in left && a != b ==> j.drains[a].request.identity != j.drains[b].request.identity
    {
      var id :| id in left;
      if j.drains[id].request.identity in seen {
        return false;
      }
      seen := seen + {j.drains[id].request.identity};
      left := left - {id};
    }
    ok := CheckPromises(j, seen);
  }

  /** The second loop: reservations against the identities of all drains. */
  method CheckPromises(j: Journal, drained: set<Identity>) returns (ok: bool)
    requires forall i :: i in drained <==> exists a :: a in j.drains && j.drains[a].request.identity == i
    ensures ok <==>
      && (forall a :: a in j.reservations ==> ValidRequest(j.reservations[a]) && j.reservations[a].id == a && a !in j.drains && j.reservations[a].identity !in drained)
      && (forall a, b :: a in j.reservations && b in j.reservations && a != b ==> j.reservations[a].identity != j.reservations[b].identity)
  {
    hide ValidRequest;
    var seen := drained;
    var left := j.reservations.Keys;
    while left != {}
      invariant left <= j.reservations.Keys && drained <= seen
      invariant forall a :: a in j.reservations && a !in left ==>
                  ValidRequest(j.reservations[a]) && j.reservations[a].id == a && a !in j.drains && j.reservations[a].identity in seen - drained
      invariant seen == drained + set a | a in j.reservations && a !in left :: j.reservations[a].identity
      invariant forall a, b :: a in j.reservations && b in j.reservations && a !in left && b !in left && a != b ==> j.reservations[a].identity != j.reservations[b].identity
    {
      var id :| id in left;
      var r := j.reservations[id];
      if !ValidRequest(r) || id != r.id || r.identity in seen || id in j.drains {
        if r.identity in seen && r.identity !in drained {
          ghost var a :| a in j.reservations && a !in left && j.reservations[a].identity == r.identity;
          assert a != id;
        }
        return false;
      }
      seen := seen + {r.identity};
      left := left - {id};
    }
    ok := true;
  }

  /** `canReserve`. */
  method CheckCapacity(j: Journal, r: DrainRequest) returns (ok: bool)
    ensures ok <==> CanReserve(j, r)
  {
    if !ValidRequest(r) {
      return false;
    }
    if r.id in j.drains {
      return j.drains[r.id].request == r;
    }
    if r.id in j.reservations {
      return j.reservations[r.id] == r;
    }
    if |j.drains| + |j.reservations| >= MAX_DRAINS {
      return false;
    }
    var left := j.drains.Keys;
    while left != {}
      invariant left <= j.drains.Keys
      invariant forall a :: a in j.drains && a !in left ==> j.drains[a].request.identity != r.identity
    {
      var a :| a in left;
      if j.drains[a].request.identity == r.identity {
        return false;
      }
      left := left - {a};
    }
    left := j.reservations.Keys;
    while left != {}
      invariant left <= j.reservations.Keys
      invariant forall a :: a in j.reservations && a !in left ==> j.reservations[a].identity != r.identity
    {
      var a :| a in left;
      if j.reservations[a].identity == r.identity {
        return false;
      }
      left := left - {a};
    }
    return true;
  }
}
