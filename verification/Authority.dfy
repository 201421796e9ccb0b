/** Which commands a node obeys (common/beupguard/controller.go), said without the
    checks themselves: what is on disk after any run, when `Execute` writes, when it
    repeats an answer, and what the acknowledgement then reports. */
module Authority {
  import opened Counters
  import opened Guards
  import opened Commands
  import opened Controllers

  /** A lease that can be asked for at all: named, about one credential, begun, and
      either without end or 600 seconds long. */
  predicate Leasable(l: Lease) {
    && Hex(l.id, 16) && l.identity.uid > 0 && Hex(l.identity.credential, 32) && l.startedAt > 0
    && l.expiresAt == if l.manual then 0 else l.startedAt + 600
  }

  /** The envelope is signed for this node and carries this command, which is short-lived
      and asks for one of the three operations. */
  ghost predicate Genuine(k: Keyring, e: Envelope, c: Command) {
    && |e.payload| <= 1024 && |e.signature| == 128 && k.decode(e) == Some(c)
    && c.version == 1 && c.node == k.node && c.sequence > 0 && 0 < c.issuedAt < c.notAfter <= c.issuedAt + 60
    && c.operation in {Block, Unblock, Cancel} && Leasable(c.lease)
    && (c.operation == Block ==> c.issuedAt - 60 <= c.lease.startedAt <= c.issuedAt)
  }

  lemma GenuineExactly(k: Keyring, e: Envelope, c: Command)
    ensures Verify(k, e) == Some(c) <==> Genuine(k, e, c)
  {
    hide Hex;
  }

  // ---- what is on disk -------------------------------------------------------------------

  /** What is true of record `i` of a journal, beyond its command being genuine: its
      number is its place, it was accepted in time and under a usable boot clock. */
  ghost predicate Lawful(k: Keyring, records: seq<Record>, i: nat, c: Command)
    requires i < |records|
  {
    var r := records[i];
    && Genuine(k, r.envelope, c) && c.sequence == i + 1
    && c.issuedAt - 5 <= r.acceptedAt < c.notAfter && r.boot.id != "" && r.boot.nanos >= 0
    && (i > 0 && records[i - 1].boot.id == r.boot.id ==> records[i - 1].boot.nanos <= r.boot.nanos)
    && (c.operation == Block ==> r.acceptedAt >= 0 && forall j :: 0 <= j < i ==> records[j].acceptedAt <= r.acceptedAt)
  }

  lemma {:induction false} WallIsLatest(k: Keyring, records: seq<Record>)
    requires Replay(k, records).Some?
    ensures Replay(k, records).value.lastWall >= 0 && forall i :: 0 <= i < |records| ==> records[i].acceptedAt <= Replay(k, records).value.lastWall
  {
    if records != [] {
      hide Verify, Accepts;
      WallIsLatest(k, records[..|records| - 1]);
    }
  }

  lemma ReplayLawful(k: Keyring, records: seq<Record>, i: nat)
    requires Replay(k, records).Some? && i < |records|
    ensures Lawful(k, records, i, CommandAt(k, records, i))
  {
    hide Replay, Genuine, Verify, Sane, Permitted, Noted;
    ReplayStep(k, records, i);
    var c, front := CommandAt(k, records, i), records[..i];
    var h := Replay(k, front).value;
    GenuineExactly(k, records[i].envelope, c);
    ReplaySane(k, front);
    WallIsLatest(k, front);
    forall j | 0 <= j < i ensures records[j].acceptedAt <= h.lastWall { assert front[j] == records[j]; }
    if i > 0 { assert h.previous == records[i - 1].boot; }
  }

  /** Over every run, every record on disk is a genuine command of this node, accepted in
      time and in its turn. */
  lemma DiskLawful(k: Keyring, boot: string, nanos: int, steps: seq<Controllers.Step>, i: nat)
    requires boot != "" && nanos >= 0 && ClockSet(k, Installed(boot, nanos), steps) && i < |Controllers.Run(k, Installed(boot, nanos), steps).disk|
    ensures var disk := Controllers.Run(k, Installed(boot, nanos), steps).disk;
            exists c :: Lawful(k, disk, i, c)
  {
    Reached(k, boot, nanos, steps);
    var disk := Controllers.Run(k, Installed(boot, nanos), steps).disk;
    hide Controllers.Run, Lawful, Replay;
    ReplayLawful(k, disk, i);
  }

  ghost predicate OpensAt(k: Keyring, records: seq<Record>, i: nat, l: Lease)
    requires Replay(k, records).Some? && i < |records|
  {
    CommandAt(k, records, i).operation != Unblock && CommandAt(k, records, i).lease == l
  }

  /** Record `i` ends the lease, by cancelling it, or also by releasing it. */
  ghost predicate EndsAt(k: Keyring, records: seq<Record>, i: nat, id: string, released: bool)
    requires Replay(k, records).Some? && i < |records|
  {
    && CommandAt(k, records, i).lease.id == id
    && (CommandAt(k, records, i).operation == Cancel || (released && CommandAt(k, records, i).operation == Unblock))
  }

  ghost predicate Opens(k: Keyring, records: seq<Record>, l: Lease)
    requires Replay(k, records).Some?
  {
    exists i: nat :: i < |records| && OpensAt(k, records, i, l)
  }

  ghost predicate Ends(k: Keyring, records: seq<Record>, id: string, released: bool)
    requires Replay(k, records).Some?
  {
    exists i: nat :: i < |records| && EndsAt(k, records, i, id, released)
  }

  lemma CommandBefore(k: Keyring, records: seq<Record>, i: nat)
    requires Replay(k, records).Some? && i < |records| - 1
    ensures Replay(k, records[..|records| - 1]).Some? && CommandAt(k, records[..|records| - 1], i) == CommandAt(k, records, i)
  {
  }

  lemma OpensOn(k: Keyring, records: seq<Record>, l: Lease)
    requires Replay(k, records).Some? && records != []
    ensures var n := |records| - 1;
            Replay(k, records[..n]).Some? && (Opens(k, records, l) <==> (Opens(k, records[..n], l) || OpensAt(k, records, n, l)))
  {
    hide Replay, CommandAt;
    var front := records[..|records| - 1];
    ReplayPrefix(k, records, |front|);
    forall i: nat | i < |front| ensures OpensAt(k, front, i, l) <==> OpensAt(k, records, i, l) { CommandBefore(k, records, i); }
    hide OpensAt;
    if Opens(k, front, l) {
      var i: nat :| i < |front| && OpensAt(k, front, i, l);
      assert OpensAt(k, records, i, l);
    }
  }

  lemma EndsOn(k: Keyring, records: seq<Record>, id: string, released: bool)
    requires Replay(k, records).Some? && records != []
    ensures var n := |records| - 1;
            Replay(k, records[..n]).Some? && (Ends(k, records, id, released) <==> (Ends(k, records[..n], id, released) || EndsAt(k, records, n, id, released)))
  {
    hide Replay, CommandAt;
    var front := records[..|records| - 1];
    ReplayPrefix(k, records, |front|);
    forall i: nat | i < |front| ensures EndsAt(k, front, i, id, released) <==> EndsAt(k, records, i, id, released) { CommandBefore(k, records, i); }
    hide EndsAt;
    if Ends(k, front, id, released) {
      var i: nat :| i < |front| && EndsAt(k, front, i, id, released);
      assert EndsAt(k, records, i, id, released);
    }
  }

  /** What the loop at startup has noted is exactly what the records say: the leases
      opened by a block or a cancellation, the ended and the cancelled ones. */
  lemma {:induction false} ReplayNotes(k: Keyring, records: seq<Record>, l: Lease)
    requires Replay(k, records).Some?
    ensures var h := Replay(k, records).value;
            && (l.id in h.seen && h.seen[l.id] == l <==> Opens(k, records, l))
            && (l.id in h.released <==> Ends(k, records, l.id, true))
            && (l.id in h.cancelled <==> Ends(k, records, l.id, false))
  {
    if records != [] {
      var n := |records| - 1;
      var front := records[..n];
      OpensOn(k, records, l);
      EndsOn(k, records, l.id, true);
      EndsOn(k, records, l.id, false);
      ReplayNotes(k, front, l);
      Opened(k, Replay(k, front).value, records[n]);
      hide Opens, Ends, Verify, Timely, Permitted, Noted;
      NotesStep(Replay(k, front).value, CommandAt(k, records, n), records[n], l);
    }
  }

  lemma NotesStep(h: History, c: Command, r: Record, l: Lease)
    requires Permitted(h, c, r) && c.operation != Unknown
    ensures var v := Noted(h, c, r);
            && (l.id in v.seen && v.seen[l.id] == l <==> ((l.id in h.seen && h.seen[l.id] == l) || (c.operation != Unblock && c.lease == l)))
            && (l.id in v.released <==> (l.id in h.released || (c.lease.id == l.id && c.operation != Block)))
            && (l.id in v.cancelled <==> (l.id in h.cancelled || (c.lease.id == l.id && c.operation == Cancel)))
  {
  }

  // ---- what Execute decides --------------------------------------------------------------

  /** Nothing has escaped the guard, and every inbound it must cover, and no other, has a
      bound credential. */
  predicate Watching(g: State) {
    && g.capacityFailures == 0 && g.coverageFailures == 0
    && (g.requiredTags != {} ==>
          && (forall tag :: tag in g.requiredTags ==> exists b :: b in g.bindings && b.tag == tag)
          && forall b :: b in g.bindings ==> b.tag in g.requiredTags)
  }

  lemma WatchingExactly(g: State)
    ensures TrackingReady(g) <==> Watching(g)
  {
    var tags := set b | b in g.bindings :: b.tag;
    if Watching(g) && g.requiredTags != {} {
      forall tag ensures tag in tags <==> tag in g.requiredTags { }
      assert tags == g.requiredTags;
    }
  }

  /** The operation is one that the present state allows. */
  ghost predicate Allowed(c: Ctl, g: State, cmd: Command, wall: int, nanos: int) {
    var l := cmd.lease;
    match cmd.operation
    case Block =>
      && c.reconcile == {} && Watching(g) && (exists b :: b in g.bindings && g.bindings[b] == l.identity)
      && l.startedAt <= wall + 5 && (!l.manual ==> wall < l.expiresAt)
      && !Blocked(g, l.identity, nanos) && l.id !in g.seen && |g.seen| < 4096
    case Cancel => l.id !in g.seen && |g.seen| < 4096
    case Unblock => l.id in g.seen && g.seen[l.id] == l && l.id !in c.released
    case Unknown => false
  }

  lemma AllowedExactly(c: Ctl, g: State, cmd: Command, wall: int, nanos: int)
    requires Leasable(cmd.lease) && cmd.operation != Unknown
    ensures Check(c, g, cmd, wall, nanos).None? <==> Allowed(c, g, cmd, wall, nanos)
  {
    WatchingExactly(g);
    hide TrackingReady, Watching, Hex;
  }

  /** The reading of the clocks goes on from the last record. */
  predicate Onward(c: Ctl, cmd: Command, wall: int, now: Stamp) {
    && now.id != "" && now.nanos >= 0 && cmd.issuedAt - 5 <= wall < cmd.notAfter
    && (c.journal != [] ==>
          var last := c.journal[|c.journal| - 1].boot;
          (cmd.operation == Block ==> c.lastWall <= wall) && (last.id == now.id ==> last.nanos <= now.nanos))
  }

  /** The envelope holds the next genuine command, in time and allowed. */
  ghost predicate Due(k: Keyring, c: Ctl, g: State, e: Envelope, wall: int, stamp: Option<Stamp>) {
    && !c.poisoned && stamp.Some? && k.decode(e).Some?
    && var cmd := k.decode(e).value;
       Genuine(k, e, cmd) && cmd.sequence == |c.journal| + 1 && Onward(c, cmd, wall, stamp.value) && Allowed(c, g, cmd, wall, stamp.value.nanos)
  }

  /** `Execute` goes on to write exactly what is due. */
  lemma WritesExactly(k: Keyring, c: Ctl, g: State, e: Envelope, wall: int, stamp: Option<Stamp>, cmd: Command, r: Record)
    ensures Consider(k, c, g, e, wall, stamp) == Go(cmd, r) <==>
            Due(k, c, g, e, wall, stamp) && k.decode(e) == Some(cmd) && r == Record(e, wall, stamp.value)
  {
    assert Genuine(k, e, cmd) ==> k.decode(e) == Some(cmd);
    GenuineExactly(k, e, cmd);
    if Verify(k, e).Some? && stamp.Some? {
      GenuineExactly(k, e, Verify(k, e).value);
      assert Leasable(Verify(k, e).value.lease) && Verify(k, e).value.operation != Unknown;
      AllowedExactly(c, g, Verify(k, e).value, wall, stamp.value.nanos);
    }
    hide Verify, Genuine, Check, Allowed, DigestText;
  }

  /** It repeats an answer exactly for an envelope that is in the journal at the place
      its command names. */
  lemma RepeatsExactly(k: Keyring, c: Ctl, g: State, e: Envelope, wall: int, stamp: Option<Stamp>, cmd: Command)
    requires Replay(k, c.journal).Some?
    ensures Consider(k, c, g, e, wall, stamp) == Repeat(cmd) <==>
            !c.poisoned && Genuine(k, e, cmd) && 0 < cmd.sequence <= |c.journal| && c.journal[cmd.sequence - 1].envelope == e
  {
    hide Replay, Check, Verify, Genuine, DigestText;
    GenuineExactly(k, e, cmd);
    if Verify(k, e).Some? {
      var v := Verify(k, e).value;
      NumberedFrom(k, e);
      if v.sequence <= |c.journal| {
        ReplayStep(k, c.journal, v.sequence - 1);
        var x := c.journal[v.sequence - 1].envelope;
        if DigestText(x) == DigestText(e) { DigestInjective(k, x, e); }
      }
    }
  }

  /** ... that is, for an envelope that is in the journal at all. */
  lemma RepeatsJournal(k: Keyring, c: Ctl, g: State, e: Envelope, wall: int, stamp: Option<Stamp>)
    requires Replay(k, c.journal).Some?
    ensures Consider(k, c, g, e, wall, stamp).Repeat? <==> !c.poisoned && exists i :: 0 <= i < |c.journal| && c.journal[i].envelope == e
  {
    hide Replay, Consider, Genuine;
    if Consider(k, c, g, e, wall, stamp).Repeat? { RepeatsExactly(k, c, g, e, wall, stamp, Consider(k, c, g, e, wall, stamp).command); }
    if i :| 0 <= i < |c.journal| && c.journal[i].envelope == e && !c.poisoned {
      ReplayLawful(k, c.journal, i);
      RepeatsExactly(k, c, g, e, wall, stamp, CommandAt(k, c.journal, i));
    }
  }

  lemma NumberedFrom(k: Keyring, e: Envelope)
    requires Verify(k, e).Some?
    ensures Verify(k, e).value.sequence >= 1
  {
    hide ValidLease;
  }

  // ---- what the acknowledgement reports ----------------------------------------------------

  /** Record `i` is the standing block of the identity, and it is in force. */
  ghost predicate InForceAt(k: Keyring, records: seq<Record>, i: nat, id: Identity, now: Stamp)
    requires Replay(k, records).Some?
  {
    i < |records| && Standing(k, records, i) && CommandAt(k, records, i).lease.identity == id && Restored(HoldOf(k, records, i), now)
  }

  /** Record `i` is a standing temporary block of another boot. */
  ghost predicate InterruptedAt(k: Keyring, records: seq<Record>, i: nat, boot: string)
    requires Replay(k, records).Some?
  {
    i < |records| && Standing(k, records, i) && Interrupted(HoldOf(k, records, i), boot)
  }

  /** An identity is blocked exactly while its standing block is in force, and by that
      lease. */
  lemma BlockedExactly(k: Keyring, m: Machine, id: Identity)
    requires Controllers.Inv(k, m) && m.proc.Some?
    ensures var p, now := m.proc.value, Stamp(m.boot, m.nanos);
            && Replay(k, p.c.journal).Some?
            && (Blocked(p.g, id, m.nanos) <==> exists i :: InForceAt(k, p.c.journal, i, id, now))
            && (forall i :: InForceAt(k, p.c.journal, i, id, now) ==> Blocked(p.g, id, m.nanos) && p.g.leases[id].lease == CommandAt(k, p.c.journal, i).lease)
  {
    var p, now := m.proc.value, Stamp(m.boot, m.nanos);
    var journal := p.c.journal;
    var h := Replay(k, journal).value;
    assert Blocked(p.g, id, m.nanos) <==> id in h.pending && Restored(h.pending[id], now) by { hide Replay, Guards.Inv, FlightOk, DiskOk, DiskMatches; }
    assert id in h.pending && Restored(h.pending[id], now) ==> p.g.leases[id].lease == h.pending[id].lease by { hide Replay, Guards.Inv, FlightOk, DiskOk, DiskMatches; }
    hide Controllers.Inv, Standing, CommandAt, Replay;
    if id in h.pending && Restored(h.pending[id], now) {
      PendingExact(k, journal, id, h.pending[id]);
      var i :| Standing(k, journal, i) && CommandAt(k, journal, i).lease.identity == id && HoldOf(k, journal, i) == h.pending[id];
      assert InForceAt(k, journal, i, id, now);
    }
    forall i | InForceAt(k, journal, i, id, now) ensures id in h.pending && h.pending[id] == HoldOf(k, journal, i) {
      PendingExact(k, journal, id, HoldOf(k, journal, i));
    }
  }

  lemma ReconcileExactly(k: Keyring, m: Machine, lease: string)
    requires Controllers.Inv(k, m) && m.proc.Some?
    ensures var p := m.proc.value;
            && Replay(k, p.c.journal).Some?
            && (lease in p.c.reconcile <==> exists i :: InterruptedAt(k, p.c.journal, i, m.boot) && CommandAt(k, p.c.journal, i).lease.id == lease)
  {
    var journal := m.proc.value.c.journal;
    var h := Replay(k, journal).value;
    assert m.proc.value.c.reconcile == Reconcile(h, m.boot) by { hide Replay, Guards.Inv, FlightOk, DiskOk, DiskMatches, Reconcile; }
    hide Controllers.Inv, Standing, CommandAt, Replay;
    if lease in Reconcile(h, m.boot) {
      var id :| id in h.pending && Interrupted(h.pending[id], m.boot) && h.pending[id].lease.id == lease;
      PendingExact(k, journal, id, h.pending[id]);
      var i :| Standing(k, journal, i) && CommandAt(k, journal, i).lease.identity == id && HoldOf(k, journal, i) == h.pending[id];
      assert InterruptedAt(k, journal, i, m.boot);
    }
    if i :| InterruptedAt(k, journal, i, m.boot) && CommandAt(k, journal, i).lease.id == lease {
      var id := CommandAt(k, journal, i).lease.identity;
      PendingExact(k, journal, id, HoldOf(k, journal, i));
      assert id in h.pending;
    }
  }

  /** What a run's records say about a lease at this moment. */
  ghost function PhaseNow(k: Keyring, records: seq<Record>, l: Lease, now: Stamp): Phase
    requires Replay(k, records).Some?
  {
    if Ends(k, records, l.id, false) then NotApplied
    else if exists i :: InForceAt(k, records, i, l.identity, now) then
      if exists i :: InForceAt(k, records, i, l.identity, now) && CommandAt(k, records, i).lease.id == l.id then InIsolation else Superseded
    else if exists i :: InterruptedAt(k, records, i, now.id) && CommandAt(k, records, i).lease.id == l.id then InterruptedByReboot
    else HasEnded
  }

  /** Every acknowledgement, in any state a run can reach, reports the state of the lease
      that the journal says it has; new flows are rejected exactly while a block of the
      identity is in force; sessions are counted exactly for the lease that is; and
      tracking is ready only when nothing waits for reconciliation. */
  lemma AckExactly(k: Keyring, m: Machine, cmd: Command)
    requires Controllers.Inv(k, m) && m.proc.Some?
    ensures var p, now, l := m.proc.value, Stamp(m.boot, m.nanos), cmd.lease;
            var a, journal := AckOf(k, p.c, p.g, cmd, m.nanos), p.c.journal;
            && Replay(k, journal).Some? && a.state == PhaseNow(k, journal, l, now)
            && (a.rejectNew <==> a.state == InIsolation || a.state == Superseded)
            && (a.identityBound <==> a.state != NotApplied && exists b :: b in p.g.bindings && p.g.bindings[b] == l.identity)
            && a.outstanding == (if a.state == InIsolation then |SessionsOf(p.g, l.identity)| else 0)
            && (a.currentLeaseId == l.id <==> a.state == InIsolation || (l.id == "" && !a.rejectNew))
            && (a.reconciliationRequired <==> exists i :: InterruptedAt(k, journal, i, m.boot))
            && (a.trackingReady <==> Watching(p.g) && !a.reconciliationRequired)
            && (a.node, a.sequence, a.leaseId, a.manual, a.expiresAt) == (k.node, cmd.sequence, l.id, l.manual, l.expiresAt)
  {
    var p := m.proc.value;
    AckPhase(k, m, cmd);
    AckFields(k, p.c, p.g, cmd, m.nanos);
    WatchingExactly(p.g);
    ReconcileAny(k, m);
    hide *;
  }

  lemma AckPhase(k: Keyring, m: Machine, cmd: Command)
    requires Controllers.Inv(k, m) && m.proc.Some?
    ensures var p := m.proc.value;
            Replay(k, p.c.journal).Some? && AckOf(k, p.c, p.g, cmd, m.nanos).state == PhaseNow(k, p.c.journal, cmd.lease, Stamp(m.boot, m.nanos))
  {
    var p, now, l := m.proc.value, Stamp(m.boot, m.nanos), cmd.lease;
    var journal := p.c.journal;
    assert Replay(k, journal).Some?;
    assert p.c.cancelled == Replay(k, journal).value.cancelled by { hide Replay, Guards.Inv, FlightOk, DiskOk, DiskMatches; }
    hide Controllers.Inv, Replay, InForceAt, InterruptedAt, Ends, CommandAt, SessionsOf, Blocked, TrackingReady;
    ReplayNotes(k, journal, l);
    BlockedExactly(k, m, l.identity);
    ReconcileExactly(k, m, l.id);
    if i :| InForceAt(k, journal, i, l.identity, now) {
      assert p.g.leases[l.identity].lease == CommandAt(k, journal, i).lease;
    }
  }

  /** How the other fields go with the state of the lease. */
  lemma AckFields(k: Keyring, c: Ctl, g: State, cmd: Command, nanos: int)
    ensures var a, l := AckOf(k, c, g, cmd, nanos), cmd.lease;
            && (a.rejectNew <==> a.state == InIsolation || a.state == Superseded)
            && (a.identityBound <==> a.state != NotApplied && exists b :: b in g.bindings && g.bindings[b] == l.identity)
            && a.outstanding == (if a.state == InIsolation then |SessionsOf(g, l.identity)| else 0)
            && (a.currentLeaseId == l.id <==> a.state == InIsolation || (l.id == "" && !a.rejectNew))
            && (a.reconciliationRequired <==> c.reconcile != {}) && (a.trackingReady <==> TrackingReady(g) && c.reconcile == {})
            && (a.node, a.sequence, a.leaseId, a.manual, a.expiresAt) == (k.node, cmd.sequence, l.id, l.manual, l.expiresAt)
  {
    hide TrackingReady, SessionsOf, Blocked;
  }

  lemma ReconcileAny(k: Keyring, m: Machine)
    requires Controllers.Inv(k, m) && m.proc.Some?
    ensures var p := m.proc.value;
            Replay(k, p.c.journal).Some? && (p.c.reconcile != {} <==> exists i :: InterruptedAt(k, p.c.journal, i, m.boot))
  {
    var p := m.proc.value;
    assert Replay(k, p.c.journal).Some?;
    hide Controllers.Inv, Replay, Standing, CommandAt;
    if p.c.reconcile != {} {
      var x :| x in p.c.reconcile;
      ReconcileExactly(k, m, x);
    }
    if i :| InterruptedAt(k, p.c.journal, i, m.boot) { ReconcileExactly(k, m, CommandAt(k, p.c.journal, i).lease.id); }
  }

  // ---- startup -------------------------------------------------------------------------------

  /** A controller opens exactly with a usable name and boot clock, on a journal that
      replays, when no temporary hold of this boot lies in the future, over a guard that
      has seen nothing. */
  lemma OpenExactly(k: Keyring, records: seq<Record>, g: State, now: Option<Stamp>)
    ensures OpenTo(k, records, g, now).Some? <==>
            && 1 <= |k.node| <= 64 && |records| <= 10000 && now.Some? && now.value.id != "" && now.value.nanos >= 0
            && g.bindings == map[] && g.leases == map[] && g.seen == map[] && g.sessions == map[]
            && Replay(k, records).Some?
            && forall i: nat :: Standing(k, records, i) && !CommandAt(k, records, i).lease.manual && records[i].boot.id == now.value.id ==> records[i].boot.nanos <= now.value.nanos
  {
    if now.Some? && Replay(k, records).Some? {
      MovedBackExactly(k, records, now.value);
      hide Standing, CommandAt, MovedBack;
    }
    hide Replay, Rebuilt, Reconcile;
  }

  lemma MovedBackExactly(k: Keyring, records: seq<Record>, now: Stamp)
    requires Replay(k, records).Some?
    ensures MovedBack(Replay(k, records).value, now) <==>
            exists i: nat :: Standing(k, records, i) && !CommandAt(k, records, i).lease.manual && records[i].boot.id == now.id && now.nanos < records[i].boot.nanos
  {
    var h := Replay(k, records).value;
    if id :| id in h.pending && !h.pending[id].lease.manual && h.pending[id].boot.id == now.id && now.nanos < h.pending[id].boot.nanos {
      PendingExact(k, records, id, h.pending[id]);
      var i: nat :| Standing(k, records, i) && CommandAt(k, records, i).lease.identity == id && HoldOf(k, records, i) == h.pending[id];
      hide Replay;
      assert records[i].boot == h.pending[id].boot;
    }
    if i: nat :| Standing(k, records, i) && !CommandAt(k, records, i).lease.manual && records[i].boot.id == now.id && now.nanos < records[i].boot.nanos {
      PendingExact(k, records, CommandAt(k, records, i).lease.identity, HoldOf(k, records, i));
      hide Replay;
      assert CommandAt(k, records, i).lease.identity in h.pending;
    }
  }
}
