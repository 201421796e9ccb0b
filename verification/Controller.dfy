/** The signed-command controller of common/beupguard/controller.go: startup replay,
    `Execute` with its two critical sections around the journal write, and the
    acknowledgement; then a machine that ticks, crashes and reboots. */
module Controllers {
  import opened Counters
  import opened Guards
  import opened Commands
  import Delivery

  /** A command that passed the first critical section and is being written. */
  datatype Flight = Flight(command: Command, record: Record, isSaved: bool)

  datatype Ctl = Ctl(
    journal: seq<Record>, poisoned: bool, lastWall: int, released: set<string>, reconcile: set<string>, cancelled: set<string>,
    flight: Option<Flight>)

  datatype Why =
    | Recover | BadCommand | ReplayConflict | NoBootClock | Stale | ClockRollback | NeedsReconcile | BadLease | NotBound | IdUsed
    | HeldAlready | Untracked | HistoryFull | NotCancellable | UnknownLease | ReleasedAlready | UncertainWrite

  datatype Verdict = Repeat(command: Command) | Go(command: Command, record: Record) | Reject(why: Why)

  // ---- Execute --------------------------------------------------------------------

  /** The checks of a block; a later check overrides the error of an earlier one. */
  function CheckBlock(g: State, l: Lease, wall: int, nanos: int): Option<Why> {
    if |g.seen| >= HISTORY then Some(HistoryFull)
    else if !TrackingReady(g) then Some(Untracked)
    else if Blocked(g, l.identity, nanos) then Some(HeldAlready)
    else if l.id in g.seen then Some(IdUsed)
    else if !ValidLease(l, wall) then Some(BadLease)
    else if !Bound(g, l.identity) then Some(NotBound)
    else None
  }

  function Check(c: Ctl, g: State, cmd: Command, wall: int, nanos: int): Option<Why> {
    var l := cmd.lease;
    if cmd.operation == Block then
      if c.reconcile != {} then Some(NeedsReconcile) else CheckBlock(g, l, wall, nanos)
    else if cmd.operation == Cancel then
      if l.id in g.seen || |g.seen| >= HISTORY then Some(NotCancellable) else None
    else if l.id in c.released then Some(ReleasedAlready)
    else if l.id !in g.seen || g.seen[l.id] != l then Some(UnknownLease)
    else None
  }

  /** Everything `Execute` decides before it writes. */
  function Consider(k: Keyring, c: Ctl, g: State, e: Envelope, wall: int, stamp: Option<Stamp>): Verdict {
    if c.poisoned then Reject(Recover)
    else
      var v := Verify(k, e);
      if v.None? then Reject(BadCommand)
      else
        var cmd, count := v.value, |c.journal|;
        if cmd.sequence <= count then
          if cmd.sequence >= 1 && DigestText(c.journal[cmd.sequence - 1].envelope) == DigestText(e) then Repeat(cmd) else Reject(ReplayConflict)
        else if stamp.None? || stamp.value.id == "" || stamp.value.nanos < 0 then Reject(NoBootClock)
        else if cmd.sequence != count + 1 || wall < cmd.issuedAt - 5 || wall >= cmd.notAfter then Reject(Stale)
        else if count > 0 && ((cmd.operation == Block && wall < c.lastWall)
                              || (c.journal[count - 1].boot.id == stamp.value.id && stamp.value.nanos < c.journal[count - 1].boot.nanos)) then
          Reject(ClockRollback)
        else
          var why := Check(c, g, cmd, wall, stamp.value.nanos);
          if why.Some? then Reject(why.value) else Go(cmd, Record(e, wall, stamp.value))
  }

  /** The second critical section. */
  function CommitCtl(c: Ctl, cmd: Command, r: Record): Ctl {
    var c := c.(journal := c.journal + [r], lastWall := Max(c.lastWall, r.acceptedAt), flight := None);
    if cmd.operation == Cancel then c.(released := c.released + {cmd.lease.id}, cancelled := c.cancelled + {cmd.lease.id})
    else if cmd.operation == Unblock then c.(released := c.released + {cmd.lease.id}, reconcile := c.reconcile - {cmd.lease.id})
    else c
  }

  function CommitGuard(g: State, cmd: Command, r: Record): State {
    var l := cmd.lease;
    if cmd.operation == Cancel then g.(seen := g.seen[l.id := l])
    else if cmd.operation == Unblock then
      if l.identity in g.leases && g.leases[l.identity].lease.id == l.id then g.(leases := g.leases - {l.identity}) else g
    else Install(g, l, Clock(r.acceptedAt, r.boot.nanos))
  }

  // ---- startup --------------------------------------------------------------------

  function Revived(p: Hold): Active { Active(p.lease, if p.lease.manual then 0 else Until(p)) }

  /** A temporary hold of another boot. */
  predicate Interrupted(p: Hold, boot: string) { !p.lease.manual && p.boot.id != boot }

  predicate Restored(p: Hold, now: Stamp) { p.lease.manual || (p.boot.id == now.id && now.nanos < Until(p)) }

  function Rebuilt(h: History, now: Stamp): map<Identity, Active> {
    map id | id in h.pending && Restored(h.pending[id], now) :: Revived(h.pending[id])
  }

  function Reconcile(h: History, boot: string): set<string> {
    set id | id in h.pending && Interrupted(h.pending[id], boot) :: h.pending[id].lease.id
  }

  predicate MovedBack(h: History, now: Stamp) {
    exists id :: id in h.pending && !h.pending[id].lease.manual && h.pending[id].boot.id == now.id && now.nanos < h.pending[id].boot.nanos
  }

  predicate Unused(g: State) { g.bindings == map[] && g.leases == map[] && g.seen == map[] && g.sessions == map[] }

  /** `OpenController` on a loaded journal. */
  function OpenTo(k: Keyring, records: seq<Record>, g: State, now: Option<Stamp>): Option<(Ctl, State)> {
    if k.node == "" || |k.node| > 64 || |records| > 10000 || now.None? || now.value.id == "" || now.value.nanos < 0 then None
    else
      var h := Replay(k, records);
      if h.None? || MovedBack(h.value, now.value) || !Unused(g) then None
      else
        Some((Ctl(records, false, h.value.lastWall, h.value.released, Reconcile(h.value, now.value.id), h.value.cancelled, None),
              g.(seen := h.value.seen, leases := Rebuilt(h.value, now.value))))
  }

  // ---- acknowledgement --------------------------------------------------------------

  datatype Phase = HasEnded | NotApplied | InterruptedByReboot | Superseded | InIsolation

  datatype Acknowledgement = Acknowledgement(
    node: string, sequence: nat, leaseId: string, state: Phase, rejectNew: bool, existingClosed: bool, outstanding: nat, manual: bool,
    expiresAt: int, trackingReady: bool, identityBound: bool, currentLeaseId: string, reconciliationRequired: bool)

  function AckOf(k: Keyring, c: Ctl, g: State, cmd: Command, nanos: int): Acknowledgement {
    var l := cmd.lease;
    var a := Acknowledgement(k.node, cmd.sequence, l.id, HasEnded, false, false, 0, l.manual, l.expiresAt,
                             TrackingReady(g) && c.reconcile == {}, false, "", c.reconcile != {});
    if l.id in c.cancelled then a.(state := NotApplied)
    else
      var a := a.(state := if l.id in c.reconcile then InterruptedByReboot else HasEnded, identityBound := Bound(g, l.identity));
      if !Blocked(g, l.identity, nanos) then a
      else
        var a := a.(currentLeaseId := g.leases[l.identity].lease.id, rejectNew := true);
        if a.currentLeaseId != l.id then a.(state := Superseded)
        else
          var n := |SessionsOf(g, l.identity)|;
          a.(state := InIsolation, outstanding := n, existingClosed := n == 0 && a.trackingReady)
  }

  // ---- the machine ------------------------------------------------------------------

  datatype Process = Process(c: Ctl, g: State, flows: set<Flow>, scope: Scope)

  /** `past` are all boot identifiers so far; the boot clock never runs backwards
      within a boot; the wall clock may show anything. */
  datatype Machine = Machine(disk: seq<Record>, boot: string, nanos: int, past: set<string>, proc: Option<Process>)

  datatype Step =
    | Tick(nanos: int)
    | Reboot(boot: string, nanos: int)
    | Crash
    | Start(g: State, stamped: bool, scope: Scope)
    | Hot(step: Guards.Step)            // traffic and user changes on the guard
    | Prune(id: Identity)               // an expired lease is dropped (Stats)
    | Submit(envelope: Envelope, wall: int, stamped: bool)
    | Save(w: Delivery.Write)
    | Commit

  function Now(m: Machine, stamped: bool): Option<Stamp> { if stamped then Some(Stamp(m.boot, m.nanos)) else None }

  function HotNext(p: Process, nanos: int, step: Guards.Step): Process {
    if step.Open? || step.Close? || step.Bind? || step.Unbind? || step.Note? then
      var w := Guards.Next(World(p.g, p.flows, nanos, p.scope), step);
      p.(g := w.g, flows := w.flows)
    else p
  }

  function PruneTo(g: State, id: Identity, nanos: int): State {
    if id in g.leases && Expired(g.leases[id], nanos) then g.(leases := g.leases - {id}) else g
  }

  function SubmitTo(k: Keyring, m: Machine, p: Process, e: Envelope, wall: int, stamped: bool): Process {
    if p.c.flight.Some? then p
    else
      var v := Consider(k, p.c, p.g, e, wall, Now(m, stamped));
      if v.Go? then p.(c := p.c.(flight := Some(Flight(v.command, v.record, false)))) else p
  }

  function SaveTo(m: Machine, p: Process, w: Delivery.Write): Machine {
    if p.c.flight.None? || p.c.flight.value.isSaved then m
    else
      var next := p.c.journal + [p.c.flight.value.record];
      match w
      case Saved => m.(disk := next, proc := Some(p.(c := p.c.(flight := Some(p.c.flight.value.(isSaved := true))))))
      case FailedOld => m.(proc := Some(p.(c := p.c.(flight := None, poisoned := true))))
      case FailedNew => m.(disk := next, proc := Some(p.(c := p.c.(flight := None, poisoned := true))))
  }

  function CommitTo(p: Process): Process {
    if p.c.flight.None? || !p.c.flight.value.isSaved then p
    else
      var f := p.c.flight.value;
      p.(c := CommitCtl(p.c, f.command, f.record), g := CommitGuard(p.g, f.command, f.record))
  }

  function Next(k: Keyring, m: Machine, step: Step): Machine {
    match step
    case Tick(nanos) => if nanos >= m.nanos then m.(nanos := nanos) else m
    case Reboot(boot, nanos) => if boot != "" && boot !in m.past && nanos >= 0 then Machine(m.disk, boot, nanos, m.past + {boot}, None) else m
    case Crash => m.(proc := None)
    case Start(g, stamped, scope) =>
      var r := OpenTo(k, m.disk, g, Now(m, stamped));
      if m.proc.Some? || r.None? then m else m.(proc := Some(Process(r.value.0, r.value.1, {}, scope)))
    case Hot(s) => if m.proc.Some? then m.(proc := Some(HotNext(m.proc.value, m.nanos, s))) else m
    case Prune(id) => if m.proc.Some? then m.(proc := Some(m.proc.value.(g := PruneTo(m.proc.value.g, id, m.nanos)))) else m
    case Submit(e, wall, stamped) => if m.proc.Some? then m.(proc := Some(SubmitTo(k, m, m.proc.value, e, wall, stamped))) else m
    case Save(w) => if m.proc.Some? then SaveTo(m, m.proc.value, w) else m
    case Commit => if m.proc.Some? then m.(proc := Some(CommitTo(m.proc.value))) else m
  }

  function Run(k: Keyring, m: Machine, steps: seq<Step>): Machine
    decreases |steps|
  {
    if steps == [] then m else Run(k, Next(k, m, steps[0]), steps[1..])
  }

  predicate IsBlock(k: Keyring, e: Envelope) { Verify(k, e).Some? && Verify(k, e).value.operation == Block }

  /** The step does not submit, on an empty journal, a block while the wall clock stands
      before 1970. */
  predicate Timed(k: Keyring, m: Machine, step: Step) {
    step.Submit? && m.proc.Some? && m.proc.value.c.journal == [] && step.wall < 0 ==> !IsBlock(k, step.envelope)
  }

  predicate ClockSet(k: Keyring, m: Machine, steps: seq<Step>)
    decreases |steps|
  {
    steps == [] || (Timed(k, m, steps[0]) && ClockSet(k, Next(k, m, steps[0]), steps[1..]))
  }

  // ---- the live state mirrors the journal ----------------------------------------------

  /** The live state is what replay would rebuild, up to expired leases that the hot
      path has or has not dropped yet. */
  ghost predicate Mirrors(h: History, c: Ctl, g: State, now: Stamp) {
    && g.seen == h.seen && c.released == h.released && c.cancelled == h.cancelled && c.lastWall == h.lastWall
    && c.reconcile == Reconcile(h, now.id)
    && (forall id :: id in g.leases ==> id in h.pending && g.leases[id] == Revived(h.pending[id]) && !Interrupted(h.pending[id], now.id))
    && (forall id :: id in h.pending && Restored(h.pending[id], now) ==> id in g.leases)
  }

  ghost predicate DiskOk(k: Keyring, m: Machine) {
    && Replay(k, m.disk).Some? && m.boot in m.past && m.boot != "" && m.nanos >= 0
    && forall i :: 0 <= i < |m.disk| ==> m.disk[i].boot.id in m.past && (m.disk[i].boot.id == m.boot ==> m.disk[i].boot.nanos <= m.nanos)
  }

  ghost predicate FlightOk(k: Keyring, c: Ctl, now: Stamp)
    requires Replay(k, c.journal).Some?
  {
    c.flight.Some? ==>
      && !c.poisoned && Accepts(k, Replay(k, c.journal).value, c.flight.value.record) && Verify(k, c.flight.value.record.envelope) == Some(c.flight.value.command)
      && c.flight.value.record.boot.id == now.id && c.flight.value.record.boot.nanos <= now.nanos
  }

  /** The journal in memory is the one on disk, or one record behind it while a
      write is under way or uncertain. */
  ghost predicate DiskMatches(m: Machine, c: Ctl) {
    && (!c.poisoned && (c.flight.None? || !c.flight.value.isSaved) ==> m.disk == c.journal)
    && (c.flight.Some? && c.flight.value.isSaved ==> m.disk == c.journal + [c.flight.value.record])
    && (c.poisoned ==> m.disk == c.journal || (|m.disk| == |c.journal| + 1 && m.disk[..|c.journal|] == c.journal && m.disk[|c.journal|].boot.id == m.boot))
  }

  ghost predicate ProcessOk(k: Keyring, m: Machine, p: Process) {
    && Guards.Inv(World(p.g, p.flows, m.nanos, p.scope))
    && Replay(k, p.c.journal).Some? && Mirrors(Replay(k, p.c.journal).value, p.c, p.g, Stamp(m.boot, m.nanos))
    && FlightOk(k, p.c, Stamp(m.boot, m.nanos)) && DiskMatches(m, p.c)
  }

  ghost predicate Inv(k: Keyring, m: Machine) { DiskOk(k, m) && (m.proc.Some? ==> ProcessOk(k, m, m.proc.value)) }

  // ---- every accepted command is replayable ------------------------------------------------

  /** The only acceptance that replay would reject: the very first record being a
      block that arrives while the wall clock stands before 1970. */
  predicate TooEarly(c: Ctl, cmd: Command, wall: int) { c.journal == [] && cmd.operation == Block && wall < 0 }

  lemma AcceptedReplays(k: Keyring, c: Ctl, g: State, e: Envelope, wall: int, now: Stamp)
    requires Replay(k, c.journal).Some? && Mirrors(Replay(k, c.journal).value, c, g, now)
    requires Consider(k, c, g, e, wall, Some(now)).Go?
    ensures var v := Consider(k, c, g, e, wall, Some(now));
            && Verify(k, v.record.envelope) == Some(v.command) && v.record == Record(e, wall, now)
            && (Replay(k, c.journal + [v.record]).Some? <==> !TooEarly(c, v.command, wall))
  {
    var h := Replay(k, c.journal).value;
    var v := Consider(k, c, g, e, wall, Some(now));
    GoFacts(k, c, g, e, wall, now);
    hide Consider, Verify, Check, Replay;
    ReplaySane(k, c.journal);
    assert h.lastWall == c.lastWall && 0 <= h.lastWall && h.count == |c.journal| && (h.count == 0 ==> h == Blank);
    CheckedPermitted(h, c, g, v.command, v.record);
    hide Sane, Mirrors, Permitted;
    TimelyIff(h, c, v.command, v.record);
    ReplayOn(k, c.journal, v.record);
  }

  /** What a command that passed all checks of `Execute` satisfies. */
  ghost predicate Passed(c: Ctl, cmd: Command, wall: int, now: Stamp) {
    && cmd.operation != Unknown && now.id != "" && now.nanos >= 0
    && cmd.sequence == |c.journal| + 1 && cmd.issuedAt - 5 <= wall < cmd.notAfter
    && (c.journal != [] ==> !(cmd.operation == Block && wall < c.lastWall)
                            && !(c.journal[|c.journal| - 1].boot.id == now.id && now.nanos < c.journal[|c.journal| - 1].boot.nanos))
  }

  lemma GoFacts(k: Keyring, c: Ctl, g: State, e: Envelope, wall: int, now: Stamp)
    requires Consider(k, c, g, e, wall, Some(now)).Go?
    ensures var v := Consider(k, c, g, e, wall, Some(now));
            && Verify(k, e) == Some(v.command) && v.record == Record(e, wall, now) && Passed(c, v.command, wall, now)
            && Check(c, g, v.command, wall, now.nanos) == None
  {
    hide Check, ValidLease, DigestText;
  }

  lemma TimelyIff(h: History, c: Ctl, cmd: Command, r: Record)
    requires Passed(c, cmd, r.acceptedAt, r.boot) && h.count == |c.journal| && h.lastWall == c.lastWall && (h.count == 0 ==> h == Blank)
    requires c.journal != [] ==> h.previous == c.journal[|c.journal| - 1].boot
    ensures Timely(h, cmd, r) <==> !TooEarly(c, cmd, r.acceptedAt)
  {
  }

  lemma CheckedPermitted(h: History, c: Ctl, g: State, cmd: Command, r: Record)
    requires Sane(h) && Mirrors(h, c, g, r.boot) && Check(c, g, cmd, r.acceptedAt, r.boot.nanos).None?
    requires cmd.operation != Unknown
    ensures Permitted(h, cmd, r)
  {
    if cmd.operation == Block && cmd.lease.identity in h.pending {
      var p := h.pending[cmd.lease.identity];
      assert Interrupted(p, r.boot.id) ==> p.lease.id in Reconcile(h, r.boot.id);
    }
  }

  /** Such a record is really written, and the controller then never opens again. */
  lemma EarlyBlockSticks(node: string, id: string, identity: Identity, e: Envelope)
    requires Hex(id, 16) && identity.uid > 0 && Hex(identity.credential, 32) && |e.payload| <= 1024 && |e.signature| == 128
    ensures var cmd := Command(1, node, 1, 1, 61, Block, Lease(id, identity, 1, 0, true));
            var k := Keyring(node, x => if x == e then Some(cmd) else None);
            var g := State(map[Binding("t", "l") := identity], map[], map[], map[], 0, 1, 0, 0, {}, {});
            var r := Record(e, -4, Stamp("b", 0));
            && Consider(k, Ctl([], false, 0, {}, {}, {}, None), g, e, -4, Some(Stamp("b", 0))) == Go(cmd, r)
            && forall later, now :: OpenTo(k, [r], later, now) == None
  {
    var g := State(map[Binding("t", "l") := identity], map[], map[], map[], 0, 1, 0, 0, {}, {});
    var cmd := Command(1, node, 1, 1, 61, Block, Lease(id, identity, 1, 0, true));
    var k := Keyring(node, x => if x == e then Some(cmd) else None);
    var r := Record(e, -4, Stamp("b", 0));
    assert g.bindings[Binding("t", "l")] == identity;
    assert Verify(k, e) == Some(cmd);
    assert [r][..0] == [];
    assert Replay(k, [r]) == None;
  }

  // ---- every step keeps the mirror ------------------------------------------------------------

  lemma MirrorTicks(h: History, c: Ctl, g: State, was: Stamp, now: Stamp)
    requires Mirrors(h, c, g, was) && was.id == now.id && was.nanos <= now.nanos
    ensures Mirrors(h, c, g, now)
  {
    assert forall id :: id in h.pending && Restored(h.pending[id], now) ==> Restored(h.pending[id], was);
  }

  /** Leases that have run out may disappear, and nothing else the mirror sees. */
  lemma MirrorSheds(h: History, c: Ctl, g: State, v: State, now: Stamp)
    requires Mirrors(h, c, g, now) && v.seen == g.seen
    requires forall id :: id in v.leases ==> id in g.leases && v.leases[id] == g.leases[id]
    requires forall id :: id in g.leases && !Expired(g.leases[id], now.nanos) ==> id in v.leases
    ensures Mirrors(h, c, v, now)
  {
  }

  /** Committing a command does to the live state what noting it does to history. */
  lemma MirrorCommits(k: Keyring, h: History, c: Ctl, g: State, r: Record, now: Stamp)
    requires Sane(h) && Mirrors(h, c, g, now) && Accepts(k, h, r) && r.boot.id == now.id
    ensures var cmd := Verify(k, r.envelope).value;
            Mirrors(Noted(h, cmd, r), CommitCtl(c, cmd, r), CommitGuard(g, cmd, r), now)
  {
    var cmd := Verify(k, r.envelope).value;
    NotedPending(k, h, r);
    Opened(k, h, r);
    CommitReconciles(k, h, r, now.id);
    var u, v := CommitGuard(g, cmd, r), Noted(h, cmd, r);
    forall id ensures LeaseMatches(v, u, id, now) { CommitLease(k, h, c, g, r, now, id); }
    hide *;
    CommitSets(h, c, g, cmd, r);
    MirrorOf(v, CommitCtl(c, cmd, r), u, now);
  }

  lemma MirrorOf(h: History, c: Ctl, g: State, now: Stamp)
    requires g.seen == h.seen && c.released == h.released && c.cancelled == h.cancelled && c.lastWall == h.lastWall
    requires c.reconcile == Reconcile(h, now.id) && forall id :: LeaseMatches(h, g, id, now)
    ensures Mirrors(h, c, g, now)
  {
    assert forall id :: id in g.leases || id in h.pending ==> LeaseMatches(h, g, id, now);
  }

  /** The part of the mirror that concerns one identity. */
  ghost predicate LeaseMatches(h: History, g: State, id: Identity, now: Stamp) {
    && (id in g.leases ==> id in h.pending && g.leases[id] == Revived(h.pending[id]) && !Interrupted(h.pending[id], now.id))
    && (id in h.pending && Restored(h.pending[id], now) ==> id in g.leases)
  }

  lemma CommitSets(h: History, c: Ctl, g: State, cmd: Command, r: Record)
    requires g.seen == h.seen && c.released == h.released && c.cancelled == h.cancelled && c.lastWall == h.lastWall
    ensures var v, d, u := Noted(h, cmd, r), CommitCtl(c, cmd, r), CommitGuard(g, cmd, r);
            && u.seen == v.seen && d.released == v.released && d.cancelled == v.cancelled && d.lastWall == v.lastWall
            && d.reconcile == if cmd.operation == Unblock then c.reconcile - {cmd.lease.id} else c.reconcile
  {
    hide SessionsOf, Deadline;
  }

  lemma CommitReconciles(k: Keyring, h: History, r: Record, boot: string)
    requires Sane(h) && Accepts(k, h, r) && r.boot.id == boot
    ensures var cmd := Verify(k, r.envelope).value;
            Reconcile(Noted(h, cmd, r), boot) == if cmd.operation == Unblock then Reconcile(h, boot) - {cmd.lease.id} else Reconcile(h, boot)
  {
    var cmd := Verify(k, r.envelope).value;
    var v := Noted(h, cmd, r);
    NotedPending(k, h, r);
    Opened(k, h, r);
    hide Verify, ValidCommand, Timely;
    forall id | id in h.pending && Interrupted(h.pending[id], boot) && !(cmd.operation == Unblock && h.pending[id].lease.id == cmd.lease.id)
      ensures h.pending[id].lease.id in Reconcile(v, boot)
    {
      assert GoodHold(h, id, h.pending[id]);
      assert id in v.pending && v.pending[id] == h.pending[id];
    }
    forall id | id in v.pending && Interrupted(v.pending[id], boot)
      ensures v.pending[id].lease.id in Reconcile(h, boot) && !(cmd.operation == Unblock && v.pending[id].lease.id == cmd.lease.id)
    {
      assert id in h.pending && v.pending[id] == h.pending[id];
    }
  }

  lemma CommitLease(k: Keyring, h: History, c: Ctl, g: State, r: Record, now: Stamp, id: Identity)
    requires Sane(h) && Mirrors(h, c, g, now) && Accepts(k, h, r) && r.boot.id == now.id
    ensures var cmd := Verify(k, r.envelope).value;
            LeaseMatches(Noted(h, cmd, r), CommitGuard(g, cmd, r), id, now)
  {
    var cmd := Verify(k, r.envelope).value;
    Opened(k, h, r);
    assert LeaseMatches(h, g, id, now);
    assert id in h.pending ==> GoodHold(h, id, h.pending[id]);
    hide *;
    LeaseCommits(h, g, cmd, r, now, id);
  }

  lemma LeaseCommits(h: History, g: State, cmd: Command, r: Record, now: Stamp, id: Identity)
    requires LeaseMatches(h, g, id, now) && (id in h.pending ==> GoodHold(h, id, h.pending[id])) && r.boot.id == now.id
    requires cmd.operation == Unblock ==> cmd.lease.id in h.seen && h.seen[cmd.lease.id] == cmd.lease
    requires cmd.operation != Unknown
    ensures LeaseMatches(Noted(h, cmd, r), CommitGuard(g, cmd, r), id, now)
  {
    hide SessionsOf;
  }

  lemma MirrorOpens(h: History, c: Ctl, g: State, now: Stamp)
    requires c.released == h.released && c.cancelled == h.cancelled && c.lastWall == h.lastWall && c.reconcile == Reconcile(h, now.id)
    requires g.seen == h.seen && g.leases == Rebuilt(h, now)
    ensures Mirrors(h, c, g, now)
  {
  }

  // ---- every step keeps the guard's own invariant ------------------------------------------------

  lemma GuardCommits(g: State, flows: set<Flow>, nanos: int, scope: Scope, cmd: Command, r: Record)
    requires Guards.Inv(World(g, flows, nanos, scope))
    ensures Guards.Inv(World(CommitGuard(g, cmd, r), flows, nanos, scope))
  {
    var u := CommitGuard(g, cmd, r);
    forall i | Blocked(u, i, nanos) ensures SessionsOf(u, i) <= u.asked {
      assert SessionsOf(u, i) == SessionsOf(g, i);
      if i != cmd.lease.identity || cmd.operation == Cancel || cmd.operation == Unblock { assert Blocked(g, i, nanos); }
    }
  }

  lemma GuardPrunes(g: State, flows: set<Flow>, nanos: int, scope: Scope, id: Identity)
    requires Guards.Inv(World(g, flows, nanos, scope))
    ensures Guards.Inv(World(PruneTo(g, id, nanos), flows, nanos, scope))
  {
    var u := PruneTo(g, id, nanos);
    forall i | Blocked(u, i, nanos) ensures SessionsOf(u, i) <= u.asked {
      assert Blocked(g, i, nanos) && SessionsOf(u, i) == SessionsOf(g, i);
    }
  }

  // ---- every step keeps the machine's invariant ------------------------------------------------

  lemma TickKeeps(k: Keyring, m: Machine, nanos: int)
    requires Inv(k, m) && nanos >= m.nanos
    ensures Inv(k, m.(nanos := nanos))
  {
    hide Replay, Accepts, Verify;
    if m.proc.Some? {
      var p := m.proc.value;
      Guards.StepKeeps(World(p.g, p.flows, m.nanos, p.scope), Guards.Tick(nanos));
      MirrorTicks(Replay(k, p.c.journal).value, p.c, p.g, Stamp(m.boot, m.nanos), Stamp(m.boot, nanos));
      hide Mirrors, Guards.Inv;
    }
  }

  lemma HotGuard(p: Process, nanos: int, step: Guards.Step)
    requires Guards.Inv(World(p.g, p.flows, nanos, p.scope))
    ensures var q := HotNext(p, nanos, step);
            Guards.Inv(World(q.g, q.flows, nanos, q.scope)) && q.c == p.c && q.scope == p.scope
  {
    hide Guards.Inv;
    Guards.StepKeeps(World(p.g, p.flows, nanos, p.scope), step);
    hide TrackTo, ApplyTo, ReleaseTo, FinishTo;
  }

  lemma HotKeeps(k: Keyring, m: Machine, step: Guards.Step)
    requires Inv(k, m) && m.proc.Some?
    ensures Inv(k, m.(proc := Some(HotNext(m.proc.value, m.nanos, step))))
  {
    hide Mirrors, Guards.Inv, Replay, Accepts, Guards.Next;
    var p := m.proc.value;
    var q := HotNext(p, m.nanos, step);
    HotGuard(p, m.nanos, step);
    HotSheds(p, m.nanos, step);
    MirrorSheds(Replay(k, p.c.journal).value, p.c, p.g, q.g, Stamp(m.boot, m.nanos));
    assert HotNext(p, m.nanos, step).c == p.c;
  }

  ghost predicate Sheds(g: State, v: State, nanos: int) {
    && v.seen == g.seen
    && (forall id :: id in v.leases ==> id in g.leases && v.leases[id] == g.leases[id])
    && (forall id :: id in g.leases && !Expired(g.leases[id], nanos) ==> id in v.leases)
  }

  lemma TrackSheds(g: State, tag: string, login: string, nanos: int)
    ensures Sheds(g, TrackTo(g, tag, login, nanos).0, nanos)
  {
  }

  lemma HotSheds(p: Process, nanos: int, step: Guards.Step)
    ensures Sheds(p.g, HotNext(p, nanos, step).g, nanos)
  {
    if step.Open? { TrackSheds(p.g, step.tag, step.login, nanos); }
    hide TrackTo, ApplyTo, ReleaseTo;
  }

  lemma PruneKeeps(k: Keyring, m: Machine, id: Identity)
    requires Inv(k, m) && m.proc.Some?
    ensures Inv(k, Next(k, m, Prune(id)))
  {
    hide Mirrors, Guards.Inv, Replay, Accepts;
    var p := m.proc.value;
    GuardPrunes(p.g, p.flows, m.nanos, p.scope, id);
    MirrorSheds(Replay(k, p.c.journal).value, p.c, p.g, PruneTo(p.g, id, m.nanos), Stamp(m.boot, m.nanos));
  }

  lemma SubmitKeeps(k: Keyring, m: Machine, e: Envelope, wall: int, stamped: bool)
    requires Inv(k, m) && m.proc.Some? && Timed(k, m, Submit(e, wall, stamped))
    ensures Inv(k, Next(k, m, Submit(e, wall, stamped)))
  {
    var p := m.proc.value;
    var v := Consider(k, p.c, p.g, e, wall, Now(m, stamped));
    if p.c.flight.None? && v.Go? {
      assert stamped && !p.c.poisoned;
      hide Guards.Inv, Replay, Accepts, Consider, Verify, Mirrors;
      AcceptedReplays(k, p.c, p.g, e, wall, Stamp(m.boot, m.nanos));
      assert !TooEarly(p.c, v.command, wall);
      ReplayOn(k, p.c.journal, v.record);
      MirrorKept(Replay(k, p.c.journal).value, p.c, SubmitTo(k, m, p, e, wall, stamped).c, p.g, Stamp(m.boot, m.nanos));
    }
    hide Guards.Inv, Replay, Accepts, Consider, Verify;
  }

  lemma SavedDisk(k: Keyring, m: Machine)
    requires Inv(k, m) && m.proc.Some? && m.proc.value.c.flight.Some?
    ensures var c := m.proc.value.c;
            && DiskOk(k, m.(disk := c.journal + [c.flight.value.record]))
            && (c.journal + [c.flight.value.record])[..|c.journal|] == c.journal
  {
    var c := m.proc.value.c;
    ReplayOn(k, c.journal, c.flight.value.record);
    hide Guards.Inv, Mirrors, Replay, Accepts, Verify;
    assert (c.journal + [c.flight.value.record])[..|c.journal|] == c.journal;
  }

  lemma SaveKeeps(k: Keyring, m: Machine, w: Delivery.Write)
    requires Inv(k, m) && m.proc.Some?
    ensures Inv(k, SaveTo(m, m.proc.value, w))
  {
    var p := m.proc.value;
    if p.c.flight.Some? && !p.c.flight.value.isSaved { SavedDisk(k, m); }
    hide Guards.Inv, DiskOk, Replay, Accepts, Verify, Reconcile;
    MirrorKept(Replay(k, p.c.journal).value, p.c, p.c.(flight := SaveTo(m, p, w).proc.value.c.flight, poisoned := SaveTo(m, p, w).proc.value.c.poisoned), p.g, Stamp(m.boot, m.nanos));
    hide Mirrors;
    assert DiskOk(k, m);
  }

  lemma MirrorKept(h: History, c: Ctl, d: Ctl, g: State, now: Stamp)
    requires Mirrors(h, c, g, now) && d.released == c.released && d.cancelled == c.cancelled && d.lastWall == c.lastWall && d.reconcile == c.reconcile
    ensures Mirrors(h, d, g, now)
  {
  }

  lemma CommitKeeps(k: Keyring, m: Machine)
    requires Inv(k, m) && m.proc.Some?
    ensures Inv(k, m.(proc := Some(CommitTo(m.proc.value))))
  {
    var p := m.proc.value;
    if p.c.flight.Some? && p.c.flight.value.isSaved {
      var f := p.c.flight.value;
      ReplaySane(k, p.c.journal);
      ReplayOn(k, p.c.journal, f.record);
      MirrorCommits(k, Replay(k, p.c.journal).value, p.c, p.g, f.record, Stamp(m.boot, m.nanos));
      GuardCommits(p.g, p.flows, m.nanos, p.scope, f.command, f.record);
    }
    hide Guards.Inv, Replay, Accepts, Verify, Mirrors, Noted, Sane, CommitGuard;
  }

  /** Boots of pending holds are boots of records. */
  lemma PendingBoots(k: Keyring, records: seq<Record>, id: Identity)
    requires Replay(k, records).Some? && id in Replay(k, records).value.pending
    ensures exists i :: 0 <= i < |records| && records[i].boot == Replay(k, records).value.pending[id].boot
  {
    PendingStands(k, records, id);
    var p := Replay(k, records).value.pending[id];
    var i: nat :| Standing(k, records, i) && CommandAt(k, records, i).lease.identity == id && HoldOf(k, records, i) == p;
    assert records[i].boot == p.boot;
  }

  /** The journal on disk always opens. */
  lemma Opens(k: Keyring, m: Machine, g: State)
    requires DiskOk(k, m) && Unused(g) && 0 < |k.node| <= 64
    ensures OpenTo(k, m.disk, g, Now(m, true)).Some?
  {
    JournalBounded(k, m.disk);
    var h := Replay(k, m.disk).value;
    forall id | id in h.pending ensures !(h.pending[id].boot.id == m.boot && m.nanos < h.pending[id].boot.nanos) {
      PendingBoots(k, m.disk, id);
    }
  }

  lemma StartKeeps(k: Keyring, m: Machine, g: State, stamped: bool, scope: Scope)
    requires Inv(k, m) && m.proc.None?
    ensures Inv(k, Next(k, m, Start(g, stamped, scope)))
  {
    var r := OpenTo(k, m.disk, g, Now(m, stamped));
    if r.Some? {
      MirrorOpens(Replay(k, m.disk).value, r.value.0, r.value.1, Stamp(m.boot, m.nanos));
      FreshGuard(r.value.1, m.nanos, scope);
      hide Guards.Inv, Replay, Mirrors, Rebuilt, Reconcile;
    }
  }

  lemma FreshGuard(g: State, nanos: int, scope: Scope)
    requires g.sessions == map[]
    ensures Guards.Inv(World(g, {}, nanos, scope))
  {
    assert forall id :: SessionsOf(g, id) == {};
  }

  lemma StepKeeps(k: Keyring, m: Machine, step: Step)
    requires Inv(k, m) && Timed(k, m, step)
    ensures Inv(k, Next(k, m, step))
  {
    match step
    case Tick(nanos) => if nanos >= m.nanos { TickKeeps(k, m, nanos); }
    case Reboot(boot, nanos) =>
    case Crash =>
    case Start(g, stamped, scope) => if m.proc.None? { StartKeeps(k, m, g, stamped, scope); }
    case Hot(s) => if m.proc.Some? { HotKeeps(k, m, s); }
    case Prune(id) => if m.proc.Some? { PruneKeeps(k, m, id); }
    case Submit(e, wall, stamped) => if m.proc.Some? { SubmitKeeps(k, m, e, wall, stamped); }
    case Save(w) => if m.proc.Some? { SaveKeeps(k, m, w); }
    case Commit => if m.proc.Some? { CommitKeeps(k, m); }
  }

  lemma {:induction false} RunKeeps(k: Keyring, m: Machine, steps: seq<Step>)
    requires Inv(k, m) && ClockSet(k, m, steps)
    ensures Inv(k, Run(k, m, steps))
    decreases |steps|
  {
    if steps != [] {
      StepKeeps(k, m, steps[0]);
      RunKeeps(k, Next(k, m, steps[0]), steps[1..]);
    }
  }

  // ---- what holds over whole runs -------------------------------------------------------------

  function Installed(boot: string, nanos: int): Machine { Machine([], boot, nanos, {boot}, None) }

  /** Every state of every run keeps the mirror between journal and live state. */
  lemma Reached(k: Keyring, boot: string, nanos: int, steps: seq<Step>)
    requires boot != "" && nanos >= 0 && ClockSet(k, Installed(boot, nanos), steps)
    ensures Inv(k, Run(k, Installed(boot, nanos), steps))
  {
    RunKeeps(k, Installed(boot, nanos), steps);
  }

  /** Every journal a run leaves on disk passes startup, whatever crashed, and stays
      below the limit of 10000 records by the bound of 8192. */
  lemma JournalOpens(k: Keyring, boot: string, nanos: int, steps: seq<Step>, g: State)
    requires boot != "" && nanos >= 0 && ClockSet(k, Installed(boot, nanos), steps) && Unused(g) && 0 < |k.node| <= 64
    ensures var m := Run(k, Installed(boot, nanos), steps);
            && OpenTo(k, m.disk, g, Now(m, true)).Some? && |m.disk| <= 8192
  {
    Reached(k, boot, nanos, steps);
    var m := Run(k, Installed(boot, nanos), steps);
    Opens(k, m, g);
    JournalBounded(k, m.disk);
  }

  /** The leases still in force. */
  function InForce(g: State, nanos: int): map<Identity, Active> {
    map id | id in g.leases && !Expired(g.leases[id], nanos) :: g.leases[id]
  }

  /** The live state as the disk knows it: the process itself, or, when a record has
      reached the disk that the process has not committed (it is between write and
      commit, or the write was uncertain), the process after that commit. */
  function Durable(k: Keyring, m: Machine): Process
    requires m.proc.Some?
  {
    var p := m.proc.value.(c := m.proc.value.c.(poisoned := false, flight := None));
    var n := |p.c.journal|;
    if |m.disk| <= n || Verify(k, m.disk[n].envelope).None? then p
    else
      var r := m.disk[n];
      var cmd := Verify(k, r.envelope).value;
      p.(c := CommitCtl(p.c, cmd, r), g := CommitGuard(p.g, cmd, r))
  }

  /** A settled process is its own durable state. */
  lemma SettledDurable(k: Keyring, m: Machine)
    requires Inv(k, m) && m.proc.Some? && m.proc.value.c.flight.None? && !m.proc.value.c.poisoned
    ensures Durable(k, m) == m.proc.value
  {
    hide DiskOk, Guards.Inv, Mirrors, Replay;
  }

  /** With a record that is only on disk, its commit mirrors the longer journal. */
  lemma AheadMirrors(k: Keyring, m: Machine, now: Stamp)
    requires DiskOk(k, m) && m.proc.Some? && Replay(k, m.proc.value.c.journal).Some?
    requires Mirrors(Replay(k, m.proc.value.c.journal).value, m.proc.value.c.(poisoned := false, flight := None), m.proc.value.g, now)
    requires m.disk != [] && m.disk == m.proc.value.c.journal + [m.disk[|m.disk| - 1]] && m.disk[|m.disk| - 1].boot.id == now.id
    ensures Mirrors(Replay(k, m.disk).value, Durable(k, m).c, Durable(k, m).g, now) && Durable(k, m).c.journal == m.disk
  {
    var c := m.proc.value.c.(poisoned := false, flight := None);
    var r := m.disk[|m.disk| - 1];
    hide Mirrors, Noted, Sane, CommitGuard;
    ReplaySane(k, c.journal);
    ReplayOn(k, c.journal, r);
    hide Replay;
    MirrorCommits(k, Replay(k, c.journal).value, c, m.proc.value.g, r, now);
    hide Verify;
  }

  lemma DurableMirrors(k: Keyring, m: Machine)
    requires Inv(k, m) && m.proc.Some?
    ensures var d := Durable(k, m);
            && Mirrors(Replay(k, m.disk).value, d.c, d.g, Stamp(m.boot, m.nanos))
            && d.c.journal == m.disk && !d.c.poisoned && d.c.flight.None?
  {
    var p := m.proc.value;
    var now := Stamp(m.boot, m.nanos);
    DurableAhead(k, m);
    hide FlightOk, DiskMatches, Guards.Inv, Replay, Verify, Accepts, DiskOk, CommitCtl, CommitGuard;
    MirrorKept(Replay(k, p.c.journal).value, p.c, p.c.(poisoned := false, flight := None), p.g, now);
    hide Mirrors;
    if m.disk != p.c.journal {
      AheadMirrors(k, m, now);
      CommitPlain(p.c.(poisoned := false, flight := None), Verify(k, m.disk[|m.disk| - 1].envelope), m.disk[|m.disk| - 1]);
    }
  }

  lemma CommitPlain(c: Ctl, cmd: Option<Command>, r: Record)
    requires !c.poisoned && c.flight.None?
    ensures cmd.Some? ==> !CommitCtl(c, cmd.value, r).poisoned && CommitCtl(c, cmd.value, r).flight.None?
  {
  }

  /** The disk is at most one record of this boot ahead. */
  lemma DurableAhead(k: Keyring, m: Machine)
    requires Inv(k, m) && m.proc.Some?
    ensures var j := m.proc.value.c.journal;
            m.disk != j ==> m.disk != [] && |m.disk| == |j| + 1 && m.disk == j + [m.disk[|m.disk| - 1]] && m.disk[|m.disk| - 1].boot.id == m.boot
  {
    hide Mirrors, Guards.Inv, Replay, Verify, Accepts, DiskOk;
    var p := m.proc.value;
    var n := |p.c.journal|;
    if m.disk != p.c.journal {
      assert |m.disk| == n + 1 && m.disk[..n] == p.c.journal;
      assert m.disk == m.disk[..n] + [m.disk[n]];
    }
  }

  /** A restart within the boot, from whatever state the process died in, rebuilds its
      durable state: the same history and reconciliation, and exactly the leases still
      in force, deadlines unchanged. */
  lemma RestartRefines(k: Keyring, m: Machine, g: State, nanos: int)
    requires Inv(k, m) && m.proc.Some? && Unused(g) && 0 < |k.node| <= 64 && nanos >= m.nanos
    ensures var d := Durable(k, m);
            var r := OpenTo(k, m.disk, g, Some(Stamp(m.boot, nanos)));
            && r.Some? && r.value.0 == d.c && r.value.1.seen == d.g.seen && r.value.1.leases == InForce(d.g, nanos)
  {
    hide Guards.Inv, FlightOk, DiskMatches;
    var d := Durable(k, m);
    TickKeeps(k, m, nanos);
    Opens(k, m.(nanos := nanos), g);
    DurableMirrors(k, m);
    var h := Replay(k, m.disk).value;
    hide Durable;
    MirrorTicks(h, d.c, d.g, Stamp(m.boot, m.nanos), Stamp(m.boot, nanos));
    RebuiltInForce(h, d.c, d.g, Stamp(m.boot, nanos));
    hide Replay, Mirrors, Rebuilt, Reconcile, MovedBack;
  }

  lemma RebuiltInForce(h: History, c: Ctl, g: State, now: Stamp)
    requires Mirrors(h, c, g, now)
    ensures Rebuilt(h, now) == InForce(g, now.nanos)
    ensures c.reconcile == Reconcile(h, now.id) && c.released == h.released && c.cancelled == h.cancelled && c.lastWall == h.lastWall && g.seen == h.seen
  {
    forall id ensures id in Rebuilt(h, now) <==> id in InForce(g, now.nanos) {
      if id in h.pending && Restored(h.pending[id], now) { assert id in g.leases; }
    }
  }

  /** After a reboot, again from whatever state the process died in, the manual holds of
      its durable state survive as they were, and all temporary leases still pending,
      those in force among them, are exactly what must be reconciled. */
  lemma RebootRefines(k: Keyring, m: Machine, g: State, boot: string, nanos: int)
    requires Inv(k, m) && m.proc.Some? && Unused(g) && 0 < |k.node| <= 64 && boot != "" && boot !in m.past && nanos >= 0
    ensures var p := Durable(k, m);
            var h := Replay(k, m.disk).value;
            var r := OpenTo(k, m.disk, g, Some(Stamp(boot, nanos)));
            && r.Some? && r.value.0 == p.c.(reconcile := set id | id in h.pending && !h.pending[id].lease.manual :: h.pending[id].lease.id)
            && p.c.reconcile <= r.value.0.reconcile
            && (forall id :: id in InForce(p.g, m.nanos) && !p.g.leases[id].lease.manual ==> p.g.leases[id].lease.id in r.value.0.reconcile)
            && r.value.1.seen == p.g.seen
            && r.value.1.leases == map id | id in p.g.leases && p.g.leases[id].lease.manual :: p.g.leases[id]
  {
    hide Guards.Inv, FlightOk, DiskMatches;
    var p := Durable(k, m);
    var h := Replay(k, m.disk).value;
    Opens(k, Next(k, m, Reboot(boot, nanos)), g);
    DurableMirrors(k, m);
    hide Durable;
    RebuiltInForce(h, p.c, p.g, Stamp(m.boot, m.nanos));
    forall id | id in h.pending ensures h.pending[id].boot.id in m.past { PendingBoots(k, m.disk, id); }
    RebootLeases(h, p.c, p.g, Stamp(m.boot, m.nanos), Stamp(boot, nanos));
    hide Replay, Mirrors, Rebuilt, Reconcile, MovedBack;
  }

  lemma RebootLeases(h: History, c: Ctl, g: State, was: Stamp, now: Stamp)
    requires Mirrors(h, c, g, was) && forall id :: id in h.pending ==> h.pending[id].boot.id != now.id
    ensures Rebuilt(h, now) == map id | id in g.leases && g.leases[id].lease.manual :: g.leases[id]
    ensures Reconcile(h, now.id) == set id | id in h.pending && !h.pending[id].lease.manual :: h.pending[id].lease.id
    ensures Reconcile(h, was.id) <= Reconcile(h, now.id)
    ensures forall id :: id in InForce(g, was.nanos) && !g.leases[id].lease.manual ==> g.leases[id].lease.id in Reconcile(h, now.id)
  {
    forall id ensures id in Rebuilt(h, now) <==> id in g.leases && g.leases[id].lease.manual {
      if id in h.pending && h.pending[id].lease.manual { assert Restored(h.pending[id], was); }
    }
  }

  /** Every live temporary lease ends, on the boot clock, 481 to 605 seconds after
      its command was accepted in this same boot, however often the process has
      been restarted since. */
  lemma LeaseLifetime(k: Keyring, m: Machine, id: Identity)
    requires Inv(k, m) && m.proc.Some? && id in m.proc.value.g.leases && !m.proc.value.g.leases[id].lease.manual
    ensures var a, journal := m.proc.value.g.leases[id], m.proc.value.c.journal;
            && Replay(k, journal).Some?
            && exists i :: 0 <= i < |journal| && CommandAt(k, journal, i).lease == a.lease && journal[i].boot.id == m.boot
                 && a.deadline == journal[i].boot.nanos + (a.lease.expiresAt - journal[i].acceptedAt) * SECOND
                 && 481 * SECOND <= a.deadline - journal[i].boot.nanos <= 605 * SECOND
  {
    var a, journal := m.proc.value.g.leases[id], m.proc.value.c.journal;
    var p := Replay(k, journal).value.pending[id];
    ReplaySane(k, journal);
    assert GoodHold(Replay(k, journal).value, id, p) && p.boot.id == m.boot;
    PendingStands(k, journal, id);
    assert a == Revived(p);
    hide Replay, Mirrors, Sane, Guards.Inv, Inv, CommandAt, Standing;
    var i: nat :| Standing(k, journal, i) && CommandAt(k, journal, i).lease.identity == id && HoldOf(k, journal, i) == p;
    assert CommandAt(k, journal, i).lease == a.lease;
  }

  // ---- a hold lasts ---------------------------------------------------------------------------

  /** An accepted record leaves a hold alone that it does not release and that has not
      run out. */
  lemma HoldStays(k: Keyring, h: History, r: Record, id: Identity)
    requires Sane(h) && Accepts(k, h, r) && id in h.pending
    requires var p := h.pending[id];
             p.lease.id !in Noted(h, Verify(k, r.envelope).value, r).released && (p.lease.manual || p.boot.id != r.boot.id || r.boot.nanos < Until(p))
    ensures var v := Noted(h, Verify(k, r.envelope).value, r);
            id in v.pending && v.pending[id] == h.pending[id]
  {
    NotedPending(k, h, r);
    hide Noted, Sane, Verify;
  }

  /** A journal keeps a pending hold until it is released or has run out: no later
      block of the same identity replays. */
  lemma {:induction false} HoldPersists(k: Keyring, records: seq<Record>, n: nat, id: Identity)
    requires Replay(k, records).Some? && n <= |records| && Replay(k, records[..n]).Some? && id in Replay(k, records[..n]).value.pending
    requires var p := Replay(k, records[..n]).value.pending[id];
             && p.lease.id !in Replay(k, records).value.released
             && forall i :: n <= i < |records| ==> p.lease.manual || p.boot.id != records[i].boot.id || records[i].boot.nanos < Until(p)
    ensures id in Replay(k, records).value.pending && Replay(k, records).value.pending[id] == Replay(k, records[..n]).value.pending[id]
    decreases |records|
  {
    if n == |records| {
      assert records[..n] == records;
    } else {
      var last := |records| - 1;
      var front := records[..last];
      assert front[..n] == records[..n];
      var h := Replay(k, front).value;
      ReplaySane(k, front);
      assert h.released <= Replay(k, records).value.released by { NotedPending(k, h, records[last]); }
      hide Sane, Accepts, Noted, Verify;
      HoldPersists(k, front, n, id);
      HoldStays(k, h, records[last], id);
    }
  }

  /** Once a block is on disk, every process that knows it refuses the identity, in
      every later state of every run: through restarts, failed writes and any
      commands other than its own release, and for a temporary hold until its time
      is up in the same boot. */
  lemma HeldWhileRecorded(k: Keyring, m: Machine, n: nat, id: Identity)
    requires Inv(k, m) && m.proc.Some? && n <= |m.proc.value.c.journal|
    requires Replay(k, m.proc.value.c.journal[..n]).Some? && id in Replay(k, m.proc.value.c.journal[..n]).value.pending
    requires var p := Replay(k, m.proc.value.c.journal[..n]).value.pending[id];
             Restored(p, Stamp(m.boot, m.nanos)) && p.lease.id !in m.proc.value.c.released
    ensures Blocked(m.proc.value.g, id, m.nanos)
    ensures forall tag, login :: Binding(tag, login) in m.proc.value.g.bindings && m.proc.value.g.bindings[Binding(tag, login)] == id ==>
              TrackTo(m.proc.value.g, tag, login, m.nanos) == (m.proc.value.g, Refused(Isolated))
  {
    var c := m.proc.value.c;
    var p := Replay(k, c.journal[..n]).value.pending[id];
    forall i | n <= i < |c.journal| ensures p.lease.manual || p.boot.id != c.journal[i].boot.id || c.journal[i].boot.nanos < Until(p) {
      JournalOnDisk(k, m, i);
    }
    HoldPersists(k, c.journal, n, id);
  }

  lemma JournalOnDisk(k: Keyring, m: Machine, i: nat)
    requires Inv(k, m) && m.proc.Some? && i < |m.proc.value.c.journal|
    ensures i < |m.disk| && m.disk[i] == m.proc.value.c.journal[i]
  {
    var j := m.proc.value.c.journal;
    if m.proc.value.c.poisoned && m.disk != j { assert m.disk[..|j|][i] == j[i]; }
  }

  lemma StepGrows(k: Keyring, m: Machine, step: Step)
    requires Inv(k, m)
    ensures m.disk <= Next(k, m, step).disk
  {
    hide DiskOk, Guards.Inv, Mirrors, Replay, Accepts, OpenTo, HotNext, SubmitTo, CommitTo, PruneTo;
  }

  /** The journal only ever grows, so what is recorded once stays recorded. */
  lemma {:induction false} DiskGrows(k: Keyring, m: Machine, steps: seq<Step>)
    requires Inv(k, m) && ClockSet(k, m, steps)
    ensures m.disk <= Run(k, m, steps).disk
    decreases |steps|
  {
    if steps != [] {
      StepKeeps(k, m, steps[0]);
      StepGrows(k, m, steps[0]);
      hide Next, Inv;
      DiskGrows(k, Next(k, m, steps[0]), steps[1..]);
    }
  }

  // ---- acknowledgements are honest --------------------------------------------------------------

  /** "Existing closed", in any state a run can reach, means that no flow of the
      identity, tracked or not, is running on an inbound in the guard's scope. */
  lemma AckHonest(k: Keyring, m: Machine, cmd: Command)
    requires Inv(k, m) && m.proc.Some? && AckOf(k, m.proc.value.c, m.proc.value.g, cmd, m.nanos).existingClosed
    ensures Blocked(m.proc.value.g, cmd.lease.identity, m.nanos) && m.proc.value.g.leases[cmd.lease.identity].lease.id == cmd.lease.id
    ensures var p, id := m.proc.value, cmd.lease.identity;
            forall f :: f in p.flows && f.identity == id ==> !InScope(p.scope, f.tag)
  {
    var p := m.proc.value;
    Guards.NoFlowLeft(World(p.g, p.flows, m.nanos, p.scope), [], cmd.lease.identity);
  }

  /** Every process is started over this scope and serves only inbounds in it. */
  predicate Serves(scope: Scope, step: Step) {
    (step.Start? ==> step.scope == scope) && (step.Hot? ==> OpensIn(scope, step.step))
  }

  ghost predicate Served(scope: Scope, m: Machine) {
    m.proc.Some? ==> m.proc.value.scope == scope && forall f :: f in m.proc.value.flows ==> InScope(scope, f.tag)
  }

  lemma StepServed(k: Keyring, m: Machine, step: Step, scope: Scope)
    requires Served(scope, m) && Serves(scope, step)
    ensures Served(scope, Next(k, m, step))
  {
    if step.Hot? && m.proc.Some? { HotServed(m.proc.value, m.nanos, step.step); }
    hide OpenTo, HotNext, Consider, CommitCtl, CommitGuard, PruneTo;
  }

  lemma HotServed(p: Process, nanos: int, step: Guards.Step)
    requires (forall f :: f in p.flows ==> InScope(p.scope, f.tag)) && OpensIn(p.scope, step)
    ensures var q := HotNext(p, nanos, step);
            q.scope == p.scope && forall f :: f in q.flows ==> InScope(p.scope, f.tag)
  {
    hide TrackTo, ApplyTo, ReleaseTo;
  }

  /** The condition a deployment can check: when every served inbound is in scope,
      "existing closed" means that no flow of the identity is running at all. */
  lemma {:induction false} AckHonestServed(k: Keyring, m: Machine, steps: seq<Step>, scope: Scope, cmd: Command)
    requires Inv(k, m) && ClockSet(k, m, steps) && Served(scope, m) && forall i :: 0 <= i < |steps| ==> Serves(scope, steps[i])
    requires var v := Run(k, m, steps); v.proc.Some? && AckOf(k, v.proc.value.c, v.proc.value.g, cmd, v.nanos).existingClosed
    ensures forall f :: f in Run(k, m, steps).proc.value.flows ==> f.identity != cmd.lease.identity
    decreases |steps|
  {
    if steps == [] {
      AckHonest(k, m, cmd);
    } else {
      hide Inv, Served, Next, AckOf;
      StepKeeps(k, m, steps[0]);
      StepServed(k, m, steps[0], scope);
      AckHonestServed(k, Next(k, m, steps[0]), steps[1..], scope, cmd);
    }
  }

  /** Without it the acknowledgement can be wrong: under any scope, an identity that is
      bound on an inbound in it and has a flow on one outside is acknowledged as closed
      while that flow runs. */
  lemma UncoveredFlowRuns(node: string, lease: string, id: Identity, e: Envelope, scope: set<string>, a: string, b: string)
    requires 0 < |node| <= 64 && Hex(lease, 16) && id.uid > 0 && Hex(id.credential, 32) && |e.payload| <= 1024 && |e.signature| == 128
    requires a in scope && b !in scope
    ensures var cmd := Command(1, node, 1, 100, 160, Block, Lease(lease, id, 100, 0, true));
            var k := Keyring(node, x => if x == e then Some(cmd) else None);
            var steps := UncoveredSteps(id, e, scope, a, b);
            var m := Run(k, Installed("boot", 0), steps);
            && ClockSet(k, Installed("boot", 0), steps) && m.proc.Some? && AckOf(k, m.proc.value.c, m.proc.value.g, cmd, m.nanos).existingClosed
            && Flow(id, None, b) in m.proc.value.flows
  {
    var cmd := Command(1, node, 1, 100, 160, Block, Lease(lease, id, 100, 0, true));
    var k := Keyring(node, x => if x == e then Some(cmd) else None);
    assert Verify(k, e) == Some(cmd);
    ClockLate(k, Installed("boot", 0), UncoveredSteps(id, e, scope, a, b));
    hide ClockSet, Next;
    UncoveredServe(k, id, scope, a, b, [Submit(e, 100, true), Save(Delivery.Saved), Commit]);
    UncoveredBlock(k, Loaded(id, a), id, e, cmd, scope, a, b);
  }

  /** A fresh guard that requires one inbound to be bound. */
  function Unloaded(a: string): State { State(map[], map[], map[], map[], 0, 1, 0, 0, {a}, {}) }

  function Loaded(id: Identity, a: string): State { Unloaded(a).(bindings := map[Binding(a, "l") := id]) }

  function UncoveredSteps(id: Identity, e: Envelope, scope: set<string>, a: string, b: string): seq<Step> {
    [Start(Unloaded(a), true, Some(scope)), Hot(Guards.Bind(Binding(a, "l"), id)), Hot(Guards.Open(b, "l", id))] + [Submit(e, 100, true), Save(Delivery.Saved), Commit]
  }

  lemma {:induction false} ClockLate(k: Keyring, m: Machine, steps: seq<Step>)
    requires forall i :: 0 <= i < |steps| && steps[i].Submit? ==> steps[i].wall >= 0
    ensures ClockSet(k, m, steps)
    decreases |steps|
  {
    hide Next;
    if steps != [] { ClockLate(k, Next(k, m, steps[0]), steps[1..]); }
  }

  const NoCtl := Ctl([], false, 0, {}, {}, {}, None)

  lemma UncoveredServe(k: Keyring, id: Identity, scope: set<string>, a: string, b: string, rest: seq<Step>)
    requires 0 < |k.node| <= 64 && a in scope && b !in scope
    ensures Run(k, Installed("boot", 0), [Start(Unloaded(a), true, Some(scope)), Hot(Guards.Bind(Binding(a, "l"), id)), Hot(Guards.Open(b, "l", id))] + rest)
            == Run(k, Machine([], "boot", 0, {"boot"}, Some(Process(NoCtl, Loaded(id, a), {Flow(id, None, b)}, Some(scope)))), rest)
  {
    var m := Installed("boot", 0);
    var blank := Unloaded(a);
    var h := Replay(k, []).value;
    assert Rebuilt(h, Stamp("boot", 0)) == map[] && Reconcile(h, "boot") == {};
    assert OpenTo(k, [], blank, Some(Stamp("boot", 0))) == Some((NoCtl, blank));
    hide OpenTo;
    var m1 := m.(proc := Some(Process(NoCtl, blank, {}, Some(scope))));
    assert Next(k, m, Start(blank, true, Some(scope))) == m1;
    var m2 := m.(proc := Some(Process(NoCtl, Loaded(id, a), {}, Some(scope))));
    assert Next(k, m1, Hot(Guards.Bind(Binding(a, "l"), id))) == m2;
    var m3 := m.(proc := Some(Process(NoCtl, Loaded(id, a), {Flow(id, None, b)}, Some(scope))));
    assert !InScope(Some(scope), b);
    var none: set<Flow> := {};
    assert none + {Flow(id, None, b)} == {Flow(id, None, b)};
    assert Next(k, m2, Hot(Guards.Open(b, "l", id))) == m3;
    RunThree(k, m, Start(blank, true, Some(scope)), Hot(Guards.Bind(Binding(a, "l"), id)), Hot(Guards.Open(b, "l", id)), rest);
  }

  lemma RunThree(k: Keyring, m: Machine, a: Step, b: Step, c: Step, rest: seq<Step>)
    ensures Run(k, m, [a, b, c] + rest) == Run(k, Next(k, Next(k, Next(k, m, a), b), c), rest)
  {
    hide Next;
    assert ([a, b, c] + rest)[1..] == [b, c] + rest && ([b, c] + rest)[1..] == [c] + rest && ([c] + rest)[1..] == rest;
    assert Run(k, m, [a, b, c] + rest) == Run(k, Next(k, m, a), [b, c] + rest) == Run(k, Next(k, Next(k, m, a), b), [c] + rest);
  }

  lemma UncoveredBlock(k: Keyring, g: State, id: Identity, e: Envelope, cmd: Command, scope: set<string>, a: string, b: string)
    requires Verify(k, e) == Some(cmd) && cmd == Command(1, k.node, 1, 100, 160, Block, cmd.lease) && cmd.lease == Lease(cmd.lease.id, id, 100, 0, true)
    requires Hex(cmd.lease.id, 16) && id.uid > 0 && Hex(id.credential, 32) && g == Loaded(id, a)
    ensures var m := Run(k, Machine([], "boot", 0, {"boot"}, Some(Process(NoCtl, g, {Flow(id, None, b)}, Some(scope)))), [Submit(e, 100, true), Save(Delivery.Saved), Commit]);
            && m.proc.Some? && AckOf(k, m.proc.value.c, m.proc.value.g, cmd, m.nanos).existingClosed && Flow(id, None, b) in m.proc.value.flows
  {
    var m := Machine([], "boot", 0, {"boot"}, Some(Process(NoCtl, g, {Flow(id, None, b)}, Some(scope))));
    var r := Record(e, 100, Stamp("boot", 0));
    UncoveredReady(g, id, a);
    assert Consider(k, NoCtl, g, e, 100, Some(Stamp("boot", 0))) == Go(cmd, r) by { hide TrackingReady; }
    hide Consider, TrackingReady, Verify;
    RunThree(k, m, Submit(e, 100, true), Save(Delivery.Saved), Commit, []);
    assert [Submit(e, 100, true), Save(Delivery.Saved), Commit] + [] == [Submit(e, 100, true), Save(Delivery.Saved), Commit];
    var u := CommitGuard(g, cmd, r);
    UncoveredReady(u, id, a);
    assert SessionsOf(u, id) == {};
    assert Blocked(u, id, 0);
  }

  lemma UncoveredReady(g: State, id: Identity, a: string)
    requires g.bindings == map[Binding(a, "l") := id] && g.requiredTags == {a} && g.capacityFailures == 0 && g.coverageFailures == 0
    ensures TrackingReady(g) && Bound(g, id)
  {
    assert g.bindings[Binding(a, "l")] == id;
    assert (set b | b in g.bindings :: b.tag) == {a} by { assert Binding(a, "l") in g.bindings && Binding(a, "l").tag == a; }
  }

  /** Every process is started over this scope, and these are the inbounds served. */
  predicate ServesOn(scope: Scope, tags: set<string>, step: Step) {
    (step.Start? ==> step.scope == scope) && (step.Hot? && step.step.Open? ==> step.step.tag in tags)
  }

  /** Every "existing closed" of every run of such a machine is true of all flows. */
  ghost predicate Truthful(k: Keyring, boot: string, nanos: int, scope: Scope, tags: set<string>) {
    forall steps, cmd :: ClockSet(k, Installed(boot, nanos), steps) && (forall i :: 0 <= i < |steps| ==> ServesOn(scope, tags, steps[i])) ==>
      var m := Run(k, Installed(boot, nanos), steps);
      m.proc.Some? && AckOf(k, m.proc.value.c, m.proc.value.g, cmd, m.nanos).existingClosed ==> forall f :: f in m.proc.value.flows ==> f.identity != cmd.lease.identity
  }

  lemma CoveredTruthful(k: Keyring, boot: string, nanos: int, scope: Scope, tags: set<string>)
    requires boot != "" && nanos >= 0 && forall tag :: tag in tags ==> InScope(scope, tag)
    ensures Truthful(k, boot, nanos, scope, tags)
  {
    hide AckOf, Next;
    var start := Installed(boot, nanos);
    forall steps, cmd | ClockSet(k, start, steps) && forall i :: 0 <= i < |steps| ==> ServesOn(scope, tags, steps[i])
      ensures var m := Run(k, start, steps);
              m.proc.Some? && AckOf(k, m.proc.value.c, m.proc.value.g, cmd, m.nanos).existingClosed ==> forall f :: f in m.proc.value.flows ==> f.identity != cmd.lease.identity
    {
      Reached(k, boot, nanos, []);
      var m := Run(k, start, steps);
      forall i | 0 <= i < |steps| ensures Serves(scope, steps[i]) { assert ServesOn(scope, tags, steps[i]); }
      if m.proc.Some? && AckOf(k, m.proc.value.c, m.proc.value.g, cmd, m.nanos).existingClosed { AckHonestServed(k, start, steps, scope, cmd); }
    }
  }

  function Zeros(n: nat): string { seq(n, _ => '0') }

  lemma UncoveredUntruthful(scope: set<string>, tags: set<string>, a: string, b: string)
    requires a in scope && b in tags && b !in scope
    ensures exists k :: !Truthful(k, "boot", 0, Some(scope), tags)
  {
    var id, e := Identity(1, Zeros(64)), Envelope("", Zeros(128));
    var cmd := Command(1, "n", 1, 100, 160, Block, Lease(Zeros(32), id, 100, 0, true));
    var k := Keyring("n", x => if x == e then Some(cmd) else None);
    UncoveredFlowRuns("n", Zeros(32), id, e, scope, a, b);
    var steps := UncoveredSteps(id, e, scope, a, b);
    assert forall i :: 0 <= i < |steps| ==> ServesOn(Some(scope), tags, steps[i]);
    hide ClockSet, Run, AckOf, UncoveredSteps;
    var m := Run(k, Installed("boot", 0), steps);
    assert m.proc.Some? && AckOf(k, m.proc.value.c, m.proc.value.g, cmd, m.nanos).existingClosed && Flow(id, None, b) in m.proc.value.flows;
    assert !Truthful(k, "boot", 0, Some(scope), tags);
  }

  /** Exactly when "existing closed" can be relied on: every run, under every keyring, of
      a machine that serves these inbounds under this scope acknowledges only what is
      true of all flows, if and only if every served inbound is in scope. */
  lemma TruthfulExactly(scope: Scope, tags: set<string>)
    requires scope.Some? ==> scope.value != {}
    ensures (forall k, boot, nanos :: boot != "" && nanos >= 0 ==> Truthful(k, boot, nanos, scope, tags)) <==> (forall tag :: tag in tags ==> InScope(scope, tag))
  {
    hide Truthful;
    if forall tag :: tag in tags ==> InScope(scope, tag) {
      forall k, boot, nanos | boot != "" && nanos >= 0 ensures Truthful(k, boot, nanos, scope, tags) { CoveredTruthful(k, boot, nanos, scope, tags); }
    } else {
      var b :| b in tags && !InScope(scope, b);
      var a :| a in scope.value;
      UncoveredUntruthful(scope.value, tags, a, b);
    }
  }

  /** "Reject new" is true of the guard: the identity is blocked by the lease that is
      named, which is the standing one of the journal, and no flow of it is let in. */
  lemma AckRejects(k: Keyring, m: Machine, cmd: Command)
    requires Inv(k, m) && m.proc.Some? && AckOf(k, m.proc.value.c, m.proc.value.g, cmd, m.nanos).rejectNew
    ensures var a, p, id := AckOf(k, m.proc.value.c, m.proc.value.g, cmd, m.nanos), m.proc.value, cmd.lease.identity;
            && Replay(k, p.c.journal).Some? && id in Replay(k, p.c.journal).value.pending
            && Replay(k, p.c.journal).value.pending[id].lease.id == a.currentLeaseId
            && (a.state == InIsolation <==> a.currentLeaseId == cmd.lease.id) && (a.state == Superseded <==> a.currentLeaseId != cmd.lease.id)
            && forall b :: b in p.g.bindings && p.g.bindings[b] == id ==> TrackTo(p.g, b.tag, b.login, m.nanos) == (p.g, Refused(Isolated))
  {
    hide Guards.Inv, Replay, TrackingReady, SessionsOf;
    assert Blocked(m.proc.value.g, cmd.lease.identity, m.nanos);
  }

  /** When a block is committed, every session of its identity is asked to close,
      those opened while the journal was being written included. */
  lemma CommitAsksAll(k: Keyring, m: Machine)
    requires Inv(k, m) && m.proc.Some? && m.proc.value.c.flight.Some? && m.proc.value.c.flight.value.isSaved && m.proc.value.c.flight.value.command.operation == Block
    ensures var v, id := CommitTo(m.proc.value).g, m.proc.value.c.flight.value.command.lease.identity;
            && SessionsOf(v, id) == SessionsOf(m.proc.value.g, id) <= v.asked
            && forall f :: f in m.proc.value.flows && f.identity == id && f.session.Some? ==> f.session.value in v.asked
  {
    var p := m.proc.value;
    var id := p.c.flight.value.command.lease.identity;
    assert SessionsOf(CommitTo(p).g, id) == SessionsOf(p.g, id);
    forall f | f in p.flows && f.identity == id && f.session.Some? ensures f.session.value in SessionsOf(p.g, id) { }
  }

  /** Releases this lease when it commits. */
  predicate Releases(m: Machine, step: Step, lease: string) {
    step.Commit? && m.proc.Some? && m.proc.value.c.flight.Some? && m.proc.value.c.flight.value.isSaved
    && m.proc.value.c.flight.value.command.operation == Unblock && m.proc.value.c.flight.value.command.lease.id == lease
  }

  predicate Dies(step: Step) { step.Crash? || step.Reboot? }

  /** One step of a process whose identity is blocked admits no session of it. */
  lemma StepShrinks(k: Keyring, m: Machine, step: Step, id: Identity)
    requires Inv(k, m) && m.proc.Some? && Blocked(m.proc.value.g, id, m.nanos) && !Dies(step)
    requires !Releases(m, step, m.proc.value.g.leases[id].lease.id) && Blocked(m.proc.value.g, id, Next(k, m, step).nanos)
    ensures var v := Next(k, m, step);
            && v.proc.Some? && id in v.proc.value.g.leases && v.proc.value.g.leases[id] == m.proc.value.g.leases[id]
            && SessionsOf(v.proc.value.g, id) <= SessionsOf(m.proc.value.g, id)
  {
    hide Guards.Inv, DiskOk, Mirrors, Replay;
    var p := m.proc.value;
    if step.Hot? { HotShrinks(p, m.nanos, step.step, id); }
    if step.Commit? && p.c.flight.Some? && p.c.flight.value.isSaved {
      CommitApart(k, m, id);
      CommitShrinks(p.g, p.c.flight.value.command, p.c.flight.value.record, id);
    }
    hide ProcessOk, DiskOk, HotNext, Consider, CommitGuard, CommitCtl, OpenTo;
  }

  lemma HotShrinks(p: Process, nanos: int, step: Guards.Step, id: Identity)
    requires Guards.Inv(World(p.g, p.flows, nanos, p.scope)) && Blocked(p.g, id, nanos)
    ensures var v := HotNext(p, nanos, step).g;
            id in v.leases && v.leases[id] == p.g.leases[id] && SessionsOf(v, id) <= SessionsOf(p.g, id)
  {
    if step.Open? || step.Close? || step.Bind? || step.Unbind? || step.Note? { Guards.StepBlocked(World(p.g, p.flows, nanos, p.scope), step, id); }
    hide Guards.Next, Guards.Inv;
  }

  lemma CommitShrinks(g: State, cmd: Command, r: Record, id: Identity)
    requires id in g.leases && (cmd.operation == Block ==> cmd.lease.identity != id) && cmd.operation != Unknown
    requires cmd.operation == Unblock ==> cmd.lease.id != g.leases[id].lease.id
    ensures var v := CommitGuard(g, cmd, r);
            id in v.leases && v.leases[id] == g.leases[id] && SessionsOf(v, id) <= SessionsOf(g, id)
  {
  }

  /** A block that can be committed is never for an identity that is blocked. */
  lemma CommitApart(k: Keyring, m: Machine, id: Identity)
    requires Inv(k, m) && m.proc.Some? && m.proc.value.c.flight.Some? && Blocked(m.proc.value.g, id, m.nanos)
    ensures m.proc.value.c.flight.value.command.operation == Block ==> m.proc.value.c.flight.value.command.lease.identity != id
    ensures m.proc.value.c.flight.value.command.operation != Unknown
  {
    hide Guards.Inv, DiskOk, DiskMatches, Replay, ValidLease, Timely;
  }

  /** While a lease is in force in a process, the session set of its identity only
      shrinks, and every session in it has been asked to close. */
  lemma {:induction false} HoldShrinks(k: Keyring, m: Machine, steps: seq<Step>, id: Identity)
    requires Inv(k, m) && ClockSet(k, m, steps) && m.proc.Some? && Blocked(m.proc.value.g, id, m.nanos)
    requires forall i :: 0 <= i < |steps| ==> !Dies(steps[i]) && !Releases(Run(k, m, steps[..i]), steps[i], m.proc.value.g.leases[id].lease.id)
    requires Blocked(m.proc.value.g, id, Run(k, m, steps).nanos)
    ensures var v := Run(k, m, steps);
            && v.proc.Some? && Blocked(v.proc.value.g, id, v.nanos) && v.proc.value.g.leases[id] == m.proc.value.g.leases[id]
            && SessionsOf(v.proc.value.g, id) <= SessionsOf(m.proc.value.g, id) && SessionsOf(v.proc.value.g, id) <= v.proc.value.g.asked
    decreases |steps|
  {
    if steps != [] {
      var x := Next(k, m, steps[0]);
      assert steps[..0] == [];
      StepKeeps(k, m, steps[0]);
      TimeForward(k, x, steps[1..]);
      StepShrinks(k, m, steps[0], id);
      forall i | 0 <= i < |steps[1..]| ensures !Dies(steps[1..][i]) && !Releases(Run(k, x, steps[1..][..i]), steps[1..][i], m.proc.value.g.leases[id].lease.id) {
        assert steps[..i + 1][0] == steps[0] && steps[..i + 1][1..] == steps[1..][..i];
      }
      HoldShrinks(k, x, steps[1..], id);
    }
  }

  lemma {:induction false} TimeForward(k: Keyring, m: Machine, steps: seq<Step>)
    requires forall i :: 0 <= i < |steps| ==> !Dies(steps[i])
    ensures m.nanos <= Run(k, m, steps).nanos
    decreases |steps|
  {
    if steps != [] { TimeForward(k, Next(k, m, steps[0]), steps[1..]); }
  }
}
