/** The controller object: `OpenController`, `Execute` and `ack` of
    common/beupguard/controller.go as they update the controller and its guard. */
module Isolation {
  import opened Counters
  import opened Guards
  import opened Commands
  import opened Controllers
  import Authority
  import Delivery

  datatype Response = Acked(ack: Acknowledgement) | Denied(why: Why)

  datatype Executed = Executed(disk: seq<Record>, c: Ctl, g: State, response: Response)

  /** One undisturbed call of `Execute`; the acknowledgement reads the clock later. */
  function ExecuteTo(k: Keyring, disk: seq<Record>, c: Ctl, g: State, e: Envelope, wall: int, stamp: Option<Stamp>, w: Delivery.Write, later: int): Executed {
    match Consider(k, c, g, e, wall, stamp)
    case Reject(why) => Executed(disk, c, g, Denied(why))
    case Repeat(cmd) => Executed(disk, c, g, Acked(AckOf(k, c, g, cmd, later)))
    case Go(cmd, r) =>
      var next := c.journal + [r];
      if w.Saved? then
        var d, u := CommitCtl(c, cmd, r), CommitGuard(g, cmd, r);
        Executed(next, d, u, Acked(AckOf(k, d, u, cmd, later)))
      else Executed(if w.FailedNew? then next else disk, c.(poisoned := true), g, Denied(UncertainWrite))
  }

  /** The call is the machine's three steps with nothing in between, so it keeps the
      machine's invariant. */
  lemma ExecuteIsSteps(k: Keyring, m: Machine, e: Envelope, wall: int, w: Delivery.Write, later: int)
    requires m.proc.Some? && m.proc.value.c.flight.None?
    ensures var p := m.proc.value;
            var x := ExecuteTo(k, m.disk, p.c, p.g, e, wall, Now(m, true), w, later);
            Controllers.Run(k, m, [Submit(e, wall, true), Save(w), Commit]) == m.(disk := x.disk, proc := Some(Process(x.c, x.g, p.flows, p.scope)))
  {
    var p := m.proc.value;
    var m1 := Controllers.Next(k, m, Submit(e, wall, true));
    var m2 := Controllers.Next(k, m1, Save(w));
    var m3 := Controllers.Next(k, m2, Commit);
    var steps := [Submit(e, wall, true), Save(w), Commit];
    assert steps[1..] == [Save(w), Commit] && [Save(w), Commit][1..] == [Commit] && [Commit][1..] == [];
    assert Controllers.Run(k, m, steps) == Controllers.Run(k, m1, [Save(w), Commit]) == Controllers.Run(k, m2, [Commit]) == Controllers.Run(k, m3, []) == m3 by {
      hide Controllers.Next;
    }
    hide Consider, CommitCtl, CommitGuard, AckOf, Controllers.Run;
    var v := Consider(k, p.c, p.g, e, wall, Now(m, true));
    if v.Go? { CommitLands(p.c, v.command, v.record); }
  }

  /** What the three verdicts mean. */
  lemma Verdicts(k: Keyring, c: Ctl, g: State, e: Envelope, wall: int, stamp: Option<Stamp>)
    ensures var v := Consider(k, c, g, e, wall, stamp);
            && (v.Go? <==> Authority.Due(k, c, g, e, wall, stamp)) && (v.Go? ==> stamp.Some? && v.record == Record(e, wall, stamp.value))
            && (Replay(k, c.journal).Some? ==> (v.Repeat? <==> !c.poisoned && exists i :: 0 <= i < |c.journal| && c.journal[i].envelope == e))
  {
    hide Replay, Consider, Authority.Allowed, Authority.Onward, Authority.Genuine;
    var v := Consider(k, c, g, e, wall, stamp);
    if v.Go? { Authority.WritesExactly(k, c, g, e, wall, stamp, v.command, v.record); }
    if Authority.Due(k, c, g, e, wall, stamp) {
      Authority.WritesExactly(k, c, g, e, wall, stamp, k.decode(e).value, Record(e, wall, stamp.value));
    }
    if Replay(k, c.journal).Some? { Authority.RepeatsJournal(k, c, g, e, wall, stamp); }
  }

  /** Committing looks only at the command, not at the flight that carried it. */
  lemma CommitLands(c: Ctl, cmd: Command, r: Record)
    ensures CommitCtl(c.(flight := Some(Flight(cmd, r, true))), cmd, r) == CommitCtl(c, cmd, r)
  {
  }

  class CommandStore {
    var records: seq<Record>

    method Save(next: seq<Record>, w: Delivery.Write) returns (ok: bool)
      modifies this
      ensures ok <==> w.Saved?
      ensures records == if w.FailedOld? then old(records) else next
    {
      if !w.FailedOld? {
        records := next;
      }
      ok := w.Saved?;
    }
  }

  class Controller {
    const keyring: Keyring
    const guard: Guard
    const store: CommandStore
    var journal: seq<Record>
    var poisoned: bool
    var lastWall: int
    var released: set<string>
    var reconcile: set<string>
    var cancelled: set<string>

    ghost function View(): Ctl
      reads this
    {
      Ctl(journal, poisoned, lastWall, released, reconcile, cancelled, None)
    }

    constructor (k: Keyring, guard: Guard, store: CommandStore, journal: seq<Record>, lastWall: int, released: set<string>, reconcile: set<string>, cancelled: set<string>)
      ensures keyring == k && this.guard == guard && this.store == store
      ensures View() == Ctl(journal, false, lastWall, released, reconcile, cancelled, None)
    {
      keyring, this.guard, this.store := k, guard, store;
      this.journal, poisoned, this.lastWall := journal, false, lastWall;
      this.released, this.reconcile, this.cancelled := released, reconcile, cancelled;
    }

    method Ack(cmd: Command, nanos: int) returns (a: Acknowledgement)
      ensures a == AckOf(keyring, View(), guard.View(), cmd, nanos)
    {
      hide TrackingReady, SessionsOf, Bound;
      var l := cmd.lease;
      var ready := guard.CheckTrackingReady();
      a := Acknowledgement(keyring.node, cmd.sequence, l.id, HasEnded, false, false, 0, l.manual, l.expiresAt, ready && reconcile == {}, false, "", reconcile != {});
      if l.id in cancelled {
        return a.(state := NotApplied);
      }
      if l.id in reconcile {
        a := a.(state := InterruptedByReboot);
      }
      var bound := guard.IsBound(l.identity);
      a := a.(identityBound := bound);
      if l.identity in guard.leases && !Expired(guard.leases[l.identity], nanos) {
        a := a.(currentLeaseId := guard.leases[l.identity].lease.id);
        if a.currentLeaseId != l.id {
          return a.(state := Superseded, rejectNew := true);
        }
        a := a.(state := InIsolation, rejectNew := true);
        var n := guard.Outstanding(l.identity);
        a := a.(outstanding := n, existingClosed := n == 0 && a.trackingReady);
      }
    }

    /** The checks of the first critical section. */
    method CheckCommand(cmd: Command, wall: int, nanos: int) returns (why: Option<Why>)
      ensures why == Check(View(), guard.View(), cmd, wall, nanos)
    {
      var l := cmd.lease;
      why := None;
      if cmd.operation == Block {
        if reconcile != {} {
          return Some(NeedsReconcile);
        }
        if !ValidLease(l, wall) {
          why := Some(BadLease);
        } else {
          var bound := guard.IsBound(l.identity);
          if !bound {
            why := Some(NotBound);
          }
        }
        if l.id in guard.seen {
          why := Some(IdUsed);
        }
        if l.identity in guard.leases && !Expired(guard.leases[l.identity], nanos) {
          why := Some(HeldAlready);
        }
        var ready := guard.CheckTrackingReady();
        if !ready {
          why := Some(Untracked);
        }
        if |guard.seen| >= HISTORY {
          why := Some(HistoryFull);
        }
      } else if cmd.operation == Cancel {
        if l.id in guard.seen || |guard.seen| >= HISTORY {
          why := Some(NotCancellable);
        }
      } else {
        if l.id !in guard.seen || guard.seen[l.id] != l {
          why := Some(UnknownLease);
        }
        if l.id in released {
          why := Some(ReleasedAlready);
        }
      }
    }

    /** Up to the journal write. */
    method Decide(e: Envelope, wall: int, stamp: Option<Stamp>) returns (v: Verdict)
      ensures v == Consider(keyring, View(), guard.View(), e, wall, stamp)
    {
      if poisoned {
        return Reject(Recover);
      }
      var verified := Verify(keyring, e);
      if verified.None? {
        return Reject(BadCommand);
      }
      var cmd, count := verified.value, |journal|;
      if cmd.sequence <= count {
        if DigestText(journal[cmd.sequence - 1].envelope) != DigestText(e) {
          return Reject(ReplayConflict);
        }
        return Repeat(cmd);
      }
      if stamp.None? || stamp.value.id == "" || stamp.value.nanos < 0 {
        return Reject(NoBootClock);
      }
      if cmd.sequence != count + 1 || wall < cmd.issuedAt - 5 || wall >= cmd.notAfter {
        return Reject(Stale);
      }
      if count > 0 {
        var prev := journal[count - 1];
        if (cmd.operation == Block && wall < lastWall) || (prev.boot.id == stamp.value.id && stamp.value.nanos < prev.boot.nanos) {
          return Reject(ClockRollback);
        }
      }
      var why := CheckCommand(cmd, wall, stamp.value.nanos);
      return if why.Some? then Reject(why.value) else Go(cmd, Record(e, wall, stamp.value));
    }

    /** The second critical section. */
    method Apply(cmd: Command, r: Record)
      modifies this`journal, this`lastWall, this`released, this`reconcile, this`cancelled, guard
      ensures View() == CommitCtl(old(View()), cmd, r)
      ensures guard.View() == CommitGuard(old(guard.View()), cmd, r)
    {
      var l := cmd.lease;
      journal := journal + [r];
      lastWall := Max(lastWall, r.acceptedAt);
      if cmd.operation == Cancel {
        guard.seen := guard.seen[l.id := l];
        released, cancelled := released + {l.id}, cancelled + {l.id};
      } else if cmd.operation == Unblock {
        released, reconcile := released + {l.id}, reconcile - {l.id};
        if l.identity in guard.leases && guard.leases[l.identity].lease.id == l.id {
          guard.leases := guard.leases - {l.identity};
        }
      } else {
        var closes := guard.Collect(l.identity);
        guard.seen := guard.seen[l.id := l];
        guard.leases := guard.leases[l.identity := Active(l, Deadline(l, Clock(r.acceptedAt, r.boot.nanos)))];
        guard.asked := guard.asked + closes;
      }
    }

    method Execute(e: Envelope, wall: int, stamp: Option<Stamp>, w: Delivery.Write, later: int) returns (r: Response)
      modifies this, guard, store
      ensures Executed(store.records, View(), guard.View(), r)
              == ExecuteTo(keyring, old(store.records), old(View()), old(guard.View()), e, wall, stamp, w, later)
      // a command that is due is written, and nothing else is
      ensures if Authority.Due(keyring, old(View()), old(guard.View()), e, wall, stamp)
              then (if w.Saved? then r.Acked? && store.records == journal == old(journal) + [Record(e, wall, stamp.value)] else r == Denied(UncertainWrite) && poisoned)
              else store.records == old(store.records) && View() == old(View()) && guard.View() == old(guard.View())
      // otherwise it is answered exactly when this very envelope is in the journal
      ensures !Authority.Due(keyring, old(View()), old(guard.View()), e, wall, stamp) && Replay(keyring, old(journal)).Some? ==>
                (r.Acked? <==> !old(poisoned) && exists i :: 0 <= i < |old(journal)| && old(journal)[i].envelope == e)
    {
      Verdicts(keyring, View(), guard.View(), e, wall, stamp);
      hide Consider, AckOf, CommitGuard, Authority.Due, Replay;
      var v := Decide(e, wall, stamp);
      match v
      case Reject(why) => return Denied(why);
      case Repeat(cmd) =>
        var a := Ack(cmd, later);
        return Acked(a);
      case Go(cmd, record) =>
        var saved := store.Save(journal + [record], w);
        if !saved {
          poisoned := true;
          return Denied(UncertainWrite);
        }
        Apply(cmd, record);
        var a := Ack(cmd, later);
        return Acked(a);
    }
  }

  /** The first loop of `OpenController`. */
  method ReplayRecords(k: Keyring, records: seq<Record>) returns (r: Option<History>)
    ensures r == Replay(k, records)
  {
    hide Verify, Overlaps;
    var seen: map<string, Lease>, released: set<string>, cancelled: set<string>, pending: map<Identity, Hold> := map[], {}, {}, map[];
    var lastWall, previous := 0, Stamp("", 0);
    for idx := 0 to |records|
      invariant Replay(k, records[..idx]) == Some(History(idx, seen, released, cancelled, pending, lastWall, previous))
    {
      ghost var h := History(idx, seen, released, cancelled, pending, lastWall, previous);
      var r := records[idx];
      assert records[..idx + 1] == records[..idx] + [r];
      ReplayOn(k, records[..idx], r);
      if !Accepts(k, h, r) { Dead(k, records, idx + 1); }
      var c := Verify(k, r.envelope);
      if c.None? || c.value.sequence != idx + 1 || r.acceptedAt < c.value.issuedAt - 5 || r.acceptedAt >= c.value.notAfter
         || (c.value.operation == Block && r.acceptedAt < lastWall) || r.boot.id == "" || r.boot.nanos < 0
         || (previous.id == r.boot.id && r.boot.nanos < previous.nanos)
      {
        return None;
      }
      lastWall, previous := Max(lastWall, r.acceptedAt), r.boot;
      var l := c.value.lease;
      match c.value.operation
      case Cancel =>
        if l.id in seen || |seen| >= HISTORY {
          return None;
        }
        seen, released, cancelled := seen[l.id := l], released + {l.id}, cancelled + {l.id};
      case Unblock =>
        if l.id !in seen || seen[l.id] != l || l.id in released {
          return None;
        }
        released := released + {l.id};
        if l.identity in pending && pending[l.identity].lease.id == l.id {
          pending := pending - {l.identity};
        }
      case _ =>
        if l.id in seen {
          return None;
        }
        seen := seen[l.id := l];
        if |seen| > HISTORY {
          return None;
        }
        if l.identity in pending && Overlaps(pending[l.identity], r.boot) {
          return None;
        }
        pending := pending[l.identity := Hold(l, r.acceptedAt, r.boot)];
    }
    assert records[..|records|] == records;
    return Some(History(|records|, seen, released, cancelled, pending, lastWall, previous));
  }

  /** A rejected record rejects the whole journal. */
  lemma Dead(k: Keyring, records: seq<Record>, n: nat)
    requires n <= |records| && Replay(k, records[..n]).None?
    ensures Replay(k, records).None?
  {
    if Replay(k, records).Some? { ReplayPrefix(k, records, n); }
  }

  /** The second loop: holds that are still in force, and temporary ones of another
      boot; `None` when the boot clock moved backwards. */
  method Rebuild(h: History, now: Stamp) returns (r: Option<(map<Identity, Active>, set<string>)>)
    ensures r.None? <==> MovedBack(h, now)
    ensures r.Some? ==> r.value == (Rebuilt(h, now), Reconcile(h, now.id))
  {
    var active: map<Identity, Active>, reconcile: set<string>, left := map[], {}, h.pending.Keys;
    while left != {}
      invariant left <= h.pending.Keys
      invariant active == map id | id in h.pending && id !in left && Restored(h.pending[id], now) :: Revived(h.pending[id])
      invariant reconcile == set id | id in h.pending && id !in left && Interrupted(h.pending[id], now.id) :: h.pending[id].lease.id
      invariant forall id :: id in h.pending && id !in left ==> h.pending[id].lease.manual || h.pending[id].boot.id != now.id || now.nanos >= h.pending[id].boot.nanos
    {
      var id :| id in left;
      left := left - {id};
      var p := h.pending[id];
      if !p.lease.manual && p.boot.id != now.id {
        reconcile := reconcile + {p.lease.id};
      } else if !p.lease.manual && now.nanos < p.boot.nanos {
        return None;
      } else {
        var remaining := (p.lease.expiresAt - p.acceptedAt) * SECOND - (now.nanos - p.boot.nanos);
        if p.lease.manual || remaining > 0 {
          active := active[id := Active(p.lease, if p.lease.manual then 0 else now.nanos + remaining)];
        }
      }
    }
    assert active == Rebuilt(h, now) && reconcile == Reconcile(h, now.id);
    return Some((active, reconcile));
  }

  method OpenController(g: Guard, k: Keyring, store: CommandStore, now: Option<Stamp>) returns (r: Option<Controller>)
    modifies g
    ensures r.None? <==> OpenTo(k, store.records, old(g.View()), now).None?
    ensures r.None? ==> g.View() == old(g.View())
    ensures r.Some? ==> fresh(r.value) && r.value.guard == g && r.value.store == store && r.value.keyring == k
    ensures r.Some? ==> (r.value.View(), g.View()) == OpenTo(k, store.records, old(g.View()), now).value
  {
    var j := store.records;
    if k.node == "" || |k.node| > 64 || |j| > 10000 || now.None? || now.value.id == "" || now.value.nanos < 0 {
      return None;
    }
    var h := ReplayRecords(k, j);
    if h.None? {
      return None;
    }
    var overlay := Rebuild(h.value, now.value);
    if overlay.None? {
      return None;
    }
    if |g.bindings| + |g.leases| + |g.seen| + |g.sessions| != 0 {
      return None;
    }
    g.seen, g.leases := h.value.seen, overlay.value.0;
    var c := new Controller(k, g, store, j, h.value.lastWall, h.value.released, overlay.value.1, h.value.cancelled);
    return Some(c);
  }
}
