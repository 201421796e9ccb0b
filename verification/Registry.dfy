/** Several guards over one proxy, common/beupguard/registry.go: every guard whose
    scope covers the inbound sees the session, a hold in any of them wins, and a
    refused call undoes what it had registered. */
module Registries {
  import opened Counters
  import opened Guards

  /** A guard and its inbound tags. */
  datatype Scoped = Scoped(guard: Guard, tags: Scope)

  predicate Covers(s: Scoped, tag: string) { InScope(s.tags, tag) }

  /** A registered session: the position of its guard and its number there. */
  datatype Ticket = Ticket(at: nat, n: nat)

  ghost predicate Distinct(entries: seq<Scoped>) {
    forall i, j :: 0 <= i < j < |entries| ==> entries[i].guard != entries[j].guard
  }

  /** Session numbers handed out so far are at most `next`. */
  ghost predicate Numbered(g: State) { forall n :: n in g.sessions ==> n <= g.next }

  /** A guard after it has been asked and what it registered was undone. */
  function Undone(g: State, tag: string, login: string, nanos: int): State {
    var t := TrackTo(g, tag, login, nanos);
    if t.1.Granted? then FinishTo(t.0, t.1.value) else t.0
  }

  /** Undoing leaves no session behind and forgets no failure. */
  lemma UndoneLeavesNothing(g: State, tag: string, login: string, nanos: int)
    requires Numbered(g)
    ensures var v := Undone(g, tag, login, nanos);
            && v.sessions == g.sessions && Numbered(v) && v.bindings == g.bindings && v.seen == g.seen
            && v.capacityFailures >= g.capacityFailures && v.coverageFailures >= g.coverageFailures
  {
    UndoneSessions(g, tag, login, nanos);
    TrackShape(g, tag, login, nanos);
    hide TrackTo;
  }

  lemma UndoneSessions(g: State, tag: string, login: string, nanos: int)
    requires Numbered(g)
    ensures Undone(g, tag, login, nanos).sessions == g.sessions
  {
    TrackShape(g, tag, login, nanos);
    hide TrackTo;
    if TrackTo(g, tag, login, nanos).1.Granted? {
      TrackAdds(g, tag, login, nanos);
      assert g.sessions - {g.next + 1} == g.sessions;
    }
  }

  lemma UndoneHolds(g: State, tag: string, login: string, nanos: int, id: Identity)
    ensures Blocked(Undone(g, tag, login, nanos), id, nanos) <==> Blocked(g, id, nanos)
  {
    TrackBlocks(g, tag, login, nanos, id);
    hide TrackTo;
    assert Undone(g, tag, login, nanos).leases == TrackTo(g, tag, login, nanos).0.leases;
  }

  /** What one guard does when asked. */
  lemma TrackShape(g: State, tag: string, login: string, nanos: int)
    ensures var t := TrackTo(g, tag, login, nanos);
            && t.0.bindings == g.bindings && t.0.seen == g.seen
            && t.0.capacityFailures >= g.capacityFailures && t.0.coverageFailures >= g.coverageFailures
            && (!t.1.Granted? ==> t.0.sessions == g.sessions && t.0.next == g.next)
            && (t.1.Granted? ==> t.1.value == g.next + 1 == t.0.next)
  {
    hide Blocked;
  }

  lemma TrackAdds(g: State, tag: string, login: string, nanos: int)
    requires TrackTo(g, tag, login, nanos).1.Granted?
    ensures TrackTo(g, tag, login, nanos).0.sessions - {g.next + 1} == g.sessions - {g.next + 1}
  {
    hide Blocked;
    var t := TrackTo(g, tag, login, nanos).0;
    assert t.sessions == g.sessions[g.next + 1 := g.bindings[Binding(tag, login)]];
  }

  lemma TrackBlocks(g: State, tag: string, login: string, nanos: int, id: Identity)
    ensures Blocked(TrackTo(g, tag, login, nanos).0, id, nanos) <==> Blocked(g, id, nanos)
  {
    hide Expired;
  }

  predicate Isolates(g: State, tag: string, login: string, nanos: int) { TrackTo(g, tag, login, nanos).1 == Refused(Isolated) }

  /** A guard that isolates is not changed by being asked. */
  lemma IsolatesUnchanged(g: State, tag: string, login: string, nanos: int)
    requires Isolates(g, tag, login, nanos)
    ensures TrackTo(g, tag, login, nanos).0 == g && Undone(g, tag, login, nanos) == g
  {
  }

  ghost function Views(entries: seq<Scoped>): seq<State>
    reads set i | 0 <= i < |entries| :: entries[i].guard
  {
    seq(|entries|, i requires 0 <= i < |entries| reads set j | 0 <= j < |entries| :: entries[j].guard => entries[i].guard.View())
  }

  /** The guard at position `i` after it was asked. */
  function Asked(entries: seq<Scoped>, g: State, i: nat, tag: string, login: string, nanos: int): State
    requires i < |entries|
  {
    if Covers(entries[i], tag) then TrackTo(g, tag, login, nanos).0 else g
  }

  predicate Grants(s: Scoped, g: State, tag: string, login: string, nanos: int) {
    Covers(s, tag) && TrackTo(g, tag, login, nanos).1.Granted?
  }

  predicate Holds(s: Scoped, g: State, tag: string, login: string, nanos: int) { Covers(s, tag) && Isolates(g, tag, login, nanos) }

  /** The tickets of the guards before position `n`. */
  function Tickets(entries: seq<Scoped>, views: seq<State>, tag: string, login: string, nanos: int, n: nat): seq<Ticket>
    requires |views| == |entries| && n <= |entries|
  {
    if n == 0 then []
    else
      Tickets(entries, views, tag, login, nanos, n - 1)
      + (if Grants(entries[n - 1], views[n - 1], tag, login, nanos) then [Ticket(n - 1, views[n - 1].next + 1)] else [])
  }

  /** The position of the first guard that holds the identity, the number of guards
      if none does. */
  function FirstHold(entries: seq<Scoped>, views: seq<State>, tag: string, login: string, nanos: int, from: nat): (f: nat)
    requires |views| == |entries| && from <= |entries|
    ensures from <= f <= |entries|
    ensures forall i :: from <= i < f ==> !Holds(entries[i], views[i], tag, login, nanos)
    ensures f < |entries| ==> Holds(entries[f], views[f], tag, login, nanos)
    decreases |entries| - from
  {
    if from == |entries| || Holds(entries[from], views[from], tag, login, nanos) then from
    else FirstHold(entries, views, tag, login, nanos, from + 1)
  }

  ghost predicate NoHold(entries: seq<Scoped>, views: seq<State>, tag: string, login: string, nanos: int, n: nat)
    requires |views| == |entries| && n <= |entries|
  {
    forall i :: 0 <= i < n ==> !Holds(entries[i], views[i], tag, login, nanos)
  }

  lemma NoHoldOn(entries: seq<Scoped>, views: seq<State>, tag: string, login: string, nanos: int, n: nat)
    requires |views| == |entries| && n <= |entries|
    ensures NoHold(entries, views, tag, login, nanos, 0)
    ensures n < |entries| && NoHold(entries, views, tag, login, nanos, n) && !Holds(entries[n], views[n], tag, login, nanos) ==> NoHold(entries, views, tag, login, nanos, n + 1)
  {
    hide Holds;
  }

  lemma FirstIs(entries: seq<Scoped>, views: seq<State>, tag: string, login: string, nanos: int, n: nat)
    requires |views| == |entries| && n <= |entries| && NoHold(entries, views, tag, login, nanos, n)
    requires n < |entries| ==> Holds(entries[n], views[n], tag, login, nanos)
    ensures FirstHold(entries, views, tag, login, nanos, 0) == n
  {
    hide Holds;
    var f := FirstHold(entries, views, tag, login, nanos, 0);
  }

  lemma TicketsOn(entries: seq<Scoped>, views: seq<State>, tag: string, login: string, nanos: int, n: nat)
    requires |views| == |entries| && n < |entries|
    ensures Tickets(entries, views, tag, login, nanos, n + 1)
            == Tickets(entries, views, tag, login, nanos, n) + (if Grants(entries[n], views[n], tag, login, nanos) then [Ticket(n, views[n].next + 1)] else [])
  {
  }

  /** The sessions one call has registered, and its completion. */
  class Handle {
    const entries: seq<Scoped>
    const tickets: seq<Ticket>
    var isDone: bool

    constructor (entries: seq<Scoped>, tickets: seq<Ticket>)
      ensures this.entries == entries && this.tickets == tickets && !isDone
    {
      this.entries, this.tickets, isDone := entries, tickets, false;
    }

    ghost predicate Valid() { Ascending(tickets, |entries|) }

    /** Removes every registered session from its own guard, once. */
    method Finish()
      requires Valid() && Distinct(entries)
      modifies this`isDone, set i | 0 <= i < |entries| :: entries[i].guard
      ensures isDone
      ensures forall i :: 0 <= i < |entries| ==> entries[i].guard.View() == if old(isDone) then old(entries[i].guard.View()) else Removed(tickets, i, old(entries[i].guard.View()))
    {
      if isDone {
        return;
      }
      isDone := true;
      forall i: nat | i < |entries| ensures Removed(tickets[..0], i, entries[i].guard.View()) == entries[i].guard.View() {
        RemovedNone(tickets[..0], i, entries[i].guard.View());
      }
      hide Removed, Distinct, FinishTo;
      for k := 0 to |tickets|
        invariant isDone
        invariant forall i :: 0 <= i < |entries| ==> entries[i].guard.View() == Removed(tickets[..k], i, old(entries[i].guard.View()))
      {
        var t := tickets[k];
        Apart(entries, t.at);
        RemovedOn(tickets, k);
        entries[t.at].guard.Finish(t.n);
      }
      assert tickets[..|tickets|] == tickets;
    }
  }

  /** A guard without the sessions that the tickets name at its position. */
  function Removed(tickets: seq<Ticket>, at: nat, g: State): State {
    g.(sessions := map n | n in g.sessions && Ticket(at, n) !in tickets :: g.sessions[n])
  }

  lemma RemovedOn(tickets: seq<Ticket>, k: nat)
    requires k < |tickets|
    ensures forall i: nat, g :: i != tickets[k].at ==> Removed(tickets[..k + 1], i, g) == Removed(tickets[..k], i, g)
    ensures forall g :: Removed(tickets[..k + 1], tickets[k].at, g) == FinishTo(Removed(tickets[..k], tickets[k].at, g), tickets[k].n)
  {
    var t := tickets[k];
    assert tickets[..k + 1] == tickets[..k] + [t];
    forall i: nat, g | i != t.at ensures Removed(tickets[..k + 1], i, g) == Removed(tickets[..k], i, g) {
      assert Removed(tickets[..k + 1], i, g).sessions == Removed(tickets[..k], i, g).sessions;
    }
    forall g ensures Removed(tickets[..k + 1], t.at, g) == FinishTo(Removed(tickets[..k], t.at, g), t.n) {
      assert Removed(tickets[..k + 1], t.at, g).sessions == FinishTo(Removed(tickets[..k], t.at, g), t.n).sessions;
    }
  }

  /** Asks every covering guard in turn. A hold in any of them refuses the flow and
      everything registered so far is undone; otherwise each covering guard has
      been asked exactly once, and the handle holds what was registered. */
  method Track(entries: seq<Scoped>, tag: string, login: string, c: Clock) returns (handle: Handle, r: Answer<()>)
    requires Distinct(entries)
    modifies set i | 0 <= i < |entries| :: entries[i].guard
    ensures fresh(handle) && handle.entries == entries && handle.Valid()
    ensures var was := old(Views(entries));
            var f := FirstHold(entries, was, tag, login, c.nanos, 0);
            if f < |entries| then
              && r == Refused(Isolated) && handle.isDone
              && forall i :: 0 <= i < |entries| ==> entries[i].guard.View() == if i < f && Covers(entries[i], tag) then Undone(was[i], tag, login, c.nanos) else was[i]
            else
              && !handle.isDone && handle.tickets == Tickets(entries, was, tag, login, c.nanos, |entries|)
              && (r.Granted? <==> handle.tickets != []) && r != Refused(Isolated)
              && forall i :: 0 <= i < |entries| ==> entries[i].guard.View() == Asked(entries, was[i], i, tag, login, c.nanos)
  {
    ghost var was := Views(entries);
    hide TrackTo, Removed, Undone, FirstHold, Tickets;
    var finishes, asked;
    finishes, asked, r := AskAll(entries, tag, login, c, was);
    FirstIs(entries, was, tag, login, c.nanos, asked);
    if asked < |entries| {
      handle := Rollback(entries, finishes, was, tag, login, c.nanos, asked);
      return;
    }
    TicketsSorted(entries, was, tag, login, c.nanos, |entries|);
    handle := new Handle(entries, finishes);
    if finishes != [] {
      r := Granted(());
    }
  }

  /** The guards before position `k` have been asked, the others are as before. */
  ghost predicate Stand(entries: seq<Scoped>, was: seq<State>, tag: string, login: string, nanos: int, k: nat)
    requires |was| == |entries|
    reads set i | 0 <= i < |entries| :: entries[i].guard
  {
    forall i :: 0 <= i < |entries| ==> entries[i].guard.View() == if i < k then Asked(entries, was[i], i, tag, login, nanos) else was[i]
  }

  /** The loop of `Track`; `asked` guards were asked before one isolated the flow. */
  method AskAll(entries: seq<Scoped>, tag: string, login: string, c: Clock, ghost was: seq<State>) returns (finishes: seq<Ticket>, asked: nat, r: Answer<()>)
    requires Distinct(entries) && |was| == |entries| && Stand(entries, was, tag, login, c.nanos, 0)
    modifies set i | 0 <= i < |entries| :: entries[i].guard
    ensures asked <= |entries| && NoHold(entries, was, tag, login, c.nanos, asked)
    ensures if asked < |entries| then Holds(entries[asked], was[asked], tag, login, c.nanos) && r == Refused(Isolated) else r.Refused? && r != Refused(Isolated)
    ensures finishes == Tickets(entries, was, tag, login, c.nanos, asked)
    ensures Stand(entries, was, tag, login, c.nanos, asked)
  {
    assert Tickets(entries, was, tag, login, c.nanos, 0) == [];
    NoHoldOn(entries, was, tag, login, c.nanos, 0);
    hide TrackTo, Tickets, Holds, Asked, Grants, Distinct, NoHold, Covers, Isolates, Stand;
    r := Refused(UnknownIdentity);
    finishes := [];
    for k := 0 to |entries|
      invariant finishes == Tickets(entries, was, tag, login, c.nanos, k)
      invariant r.Refused? && r != Refused(Isolated)
      invariant NoHold(entries, was, tag, login, c.nanos, k)
      invariant Stand(entries, was, tag, login, c.nanos, k)
    {
      TicketsOn(entries, was, tag, login, c.nanos, k);
      NoHoldOn(entries, was, tag, login, c.nanos, k);
      var error, found := AskNext(entries, k, tag, login, c, was);
      if error == Some(Isolated) {
        return finishes, k, Refused(Isolated);
      }
      r := Refused(if error.Some? then error.value else r.why);
      finishes := finishes + found;
    }
    asked := |entries|;
  }

  /** One turn of the loop. */
  method AskNext(entries: seq<Scoped>, k: nat, tag: string, login: string, c: Clock, ghost was: seq<State>) returns (error: Option<Refusal>, found: seq<Ticket>)
    requires Distinct(entries) && k < |entries| == |was| && Stand(entries, was, tag, login, c.nanos, k)
    modifies set i | 0 <= i < |entries| :: entries[i].guard
    ensures error == Some(Isolated) <==> Holds(entries[k], was[k], tag, login, c.nanos)
    ensures Stand(entries, was, tag, login, c.nanos, if error == Some(Isolated) then k else k + 1)
    ensures found == if Grants(entries[k], was[k], tag, login, c.nanos) then [Ticket(k, was[k].next + 1)] else []
  {
    Apart(entries, k);
    hide TrackTo, Holds, Asked, Grants, Distinct, Covers, Isolates;
    error, found := Ask(entries, k, tag, login, c);
  }

  lemma Apart(entries: seq<Scoped>, k: nat)
    requires Distinct(entries) && k < |entries|
    ensures forall i :: 0 <= i < |entries| && i != k ==> entries[i].guard != entries[k].guard
  {
  }

  /** Asks the guard at one position, if it covers the tag. */
  method Ask(entries: seq<Scoped>, k: nat, tag: string, login: string, c: Clock) returns (error: Option<Refusal>, found: seq<Ticket>)
    requires k < |entries|
    modifies entries[k].guard
    ensures entries[k].guard.View() == Asked(entries, old(entries[k].guard.View()), k, tag, login, c.nanos)
    ensures error == Some(Isolated) <==> Holds(entries[k], old(entries[k].guard.View()), tag, login, c.nanos)
    ensures error == Some(Isolated) ==> entries[k].guard.View() == old(entries[k].guard.View())
    ensures found == if Grants(entries[k], old(entries[k].guard.View()), tag, login, c.nanos) then [Ticket(k, old(entries[k].guard.View()).next + 1)] else []
  {
    if !Covers(entries[k], tag) {
      return None, [];
    }
    ghost var g := entries[k].guard.View();
    if Isolates(g, tag, login, c.nanos) { IsolatesUnchanged(g, tag, login, c.nanos); }
    if TrackTo(g, tag, login, c.nanos).1.Granted? { TrackNumber(g, tag, login, c.nanos); }
    hide TrackTo;
    var r := entries[k].guard.Track(tag, login, c);
    match r
    case Granted(n) => return None, [Ticket(k, n)];
    case Refused(why) => return Some(why), [];
  }

  /** The completion called on refusal, when the guards before position `k` have
      been asked. */
  method Rollback(entries: seq<Scoped>, finishes: seq<Ticket>, ghost was: seq<State>, tag: string, login: string, nanos: int, k: nat) returns (handle: Handle)
    requires Distinct(entries) && |was| == |entries| && k < |entries| && finishes == Tickets(entries, was, tag, login, nanos, k)
    requires forall i :: 0 <= i < |entries| ==> entries[i].guard.View() == if i < k then Asked(entries, was[i], i, tag, login, nanos) else was[i]
    modifies set i | 0 <= i < |entries| :: entries[i].guard
    ensures fresh(handle) && handle.entries == entries && handle.Valid() && handle.isDone
    ensures forall i :: 0 <= i < |entries| ==> entries[i].guard.View() == if i < k && Covers(entries[i], tag) then Undone(was[i], tag, login, nanos) else was[i]
  {
    hide TrackTo, Removed, Undone;
    TicketsSorted(entries, was, tag, login, nanos, k);
    forall i: nat | i < |entries|
      ensures Removed(finishes, i, entries[i].guard.View()) == if i < k && Covers(entries[i], tag) then Undone(was[i], tag, login, nanos) else was[i]
    {
      TicketsUndo(entries, was, tag, login, nanos, k, i);
    }
    hide Tickets;
    handle := new Handle(entries, finishes);
    assert handle.Valid();
    handle.Finish();
  }

  lemma TrackNumber(g: State, tag: string, login: string, nanos: int)
    requires TrackTo(g, tag, login, nanos).1.Granted?
    ensures TrackTo(g, tag, login, nanos).1 == Granted(g.next + 1)
  {
  }

  lemma {:induction false} TicketsBound(entries: seq<Scoped>, views: seq<State>, tag: string, login: string, nanos: int, n: nat)
    requires |views| == |entries| && n <= |entries|
    ensures forall t :: t in Tickets(entries, views, tag, login, nanos, n) <==>
              t.at < n && Grants(entries[t.at], views[t.at], tag, login, nanos) && t.n == views[t.at].next + 1
  {
    hide TrackTo, Grants;
    if n > 0 { TicketsBound(entries, views, tag, login, nanos, n - 1); }
  }

  ghost predicate Ascending(ts: seq<Ticket>, n: nat) {
    && (forall i :: 0 <= i < |ts| ==> ts[i].at < n)
    && (forall i, j :: 0 <= i < j < |ts| ==> ts[i].at < ts[j].at)
  }

  lemma {:induction false} TicketsSorted(entries: seq<Scoped>, views: seq<State>, tag: string, login: string, nanos: int, n: nat)
    requires |views| == |entries| && n <= |entries|
    ensures Ascending(Tickets(entries, views, tag, login, nanos, n), n)
  {
    if n > 0 {
      TicketsSorted(entries, views, tag, login, nanos, n - 1);
      TicketsOn(entries, views, tag, login, nanos, n - 1);
      hide Tickets, Grants;
      AscendingOn(Tickets(entries, views, tag, login, nanos, n - 1), Ticket(n - 1, views[n - 1].next + 1));
    }
  }

  lemma AscendingOn(ts: seq<Ticket>, t: Ticket)
    requires Ascending(ts, t.at)
    ensures Ascending(ts + [t], t.at + 1) && Ascending(ts + [], t.at + 1)
  {
    assert ts + [] == ts;
  }

  /** Removing the tickets of the first `n` guards undoes what those did. */
  lemma TicketsUndo(entries: seq<Scoped>, views: seq<State>, tag: string, login: string, nanos: int, n: nat, i: nat)
    requires |views| == |entries| && n <= |entries| && i < |entries|
    ensures Removed(Tickets(entries, views, tag, login, nanos, n), i, if i < n then Asked(entries, views[i], i, tag, login, nanos) else views[i])
            == if i < n && Covers(entries[i], tag) then Undone(views[i], tag, login, nanos) else views[i]
  {
    var ts := Tickets(entries, views, tag, login, nanos, n);
    TicketsBound(entries, views, tag, login, nanos, n);
    hide TrackTo, Tickets, Removed, Grants;
    assert forall t :: t in ts && t.at == i ==> i < n && t.n == views[i].next + 1 && Grants(entries[i], views[i], tag, login, nanos);
    assert i < n && Grants(entries[i], views[i], tag, login, nanos) ==> Ticket(i, views[i].next + 1) in ts;
    TicketUndo(entries, views[i], ts, tag, login, nanos, n, i);
  }

  lemma TicketUndo(entries: seq<Scoped>, g: State, ts: seq<Ticket>, tag: string, login: string, nanos: int, n: nat, i: nat)
    requires n <= |entries| && i < |entries|
    requires forall t :: t in ts && t.at == i ==> i < n && t.n == g.next + 1 && Grants(entries[i], g, tag, login, nanos)
    requires i < n && Grants(entries[i], g, tag, login, nanos) ==> Ticket(i, g.next + 1) in ts
    ensures Removed(ts, i, if i < n then Asked(entries, g, i, tag, login, nanos) else g)
            == if i < n && Covers(entries[i], tag) then Undone(g, tag, login, nanos) else g
  {
    hide TrackTo, Removed, FinishTo;
    if i < n && Grants(entries[i], g, tag, login, nanos) {
      TrackNumber(g, tag, login, nanos);
      RemovedOne(ts, i, g.next + 1, TrackTo(g, tag, login, nanos).0);
    } else {
      RemovedNone(ts, i, if i < n then Asked(entries, g, i, tag, login, nanos) else g);
    }
  }

  lemma RemovedOne(tickets: seq<Ticket>, at: nat, n: nat, g: State)
    requires forall t :: t in tickets && t.at == at ==> t.n == n
    requires Ticket(at, n) in tickets
    ensures Removed(tickets, at, g) == FinishTo(g, n)
  {
    assert Removed(tickets, at, g).sessions == FinishTo(g, n).sessions;
  }

  lemma RemovedNone(tickets: seq<Ticket>, at: nat, g: State)
    requires forall t :: t in tickets ==> t.at != at
    ensures Removed(tickets, at, g) == g
  {
    assert Removed(tickets, at, g).sessions == g.sessions;
  }

  // ---- other calls in between ---------------------------------------------------------------

  /** How a guard may change while a group call is between two guards: numbers only
      grow, and a session that is gone never comes back. */
  ghost predicate Evolves(g: State, v: State) {
    && g.next <= v.next && Numbered(v)
    && forall n :: n in v.sessions && n <= g.next ==> n in g.sessions && v.sessions[n] == g.sessions[n]
  }

  lemma StepEvolves(w: World, step: Guards.Step)
    requires Numbered(w.g)
    ensures Evolves(w.g, Guards.Next(w, step).g)
  {
    if step.Open? { TrackEvolves(w.g, step.tag, step.login, w.nanos); }
    hide TrackTo;
  }

  lemma TrackEvolves(g: State, tag: string, login: string, nanos: int)
    requires Numbered(g)
    ensures Evolves(g, TrackTo(g, tag, login, nanos).0)
  {
    var v := TrackTo(g, tag, login, nanos).0;
    TrackShape(g, tag, login, nanos);
    if TrackTo(g, tag, login, nanos).1.Granted? { TrackAdds(g, tag, login, nanos); }
    hide TrackTo;
    forall n | n in v.sessions && n != g.next + 1 ensures n in g.sessions && v.sessions[n] == g.sessions[n] {
      assert n in v.sessions - {g.next + 1};
    }
  }

  lemma {:induction false} RunEvolves(w: World, steps: seq<Guards.Step>)
    requires Numbered(w.g)
    ensures Evolves(w.g, Guards.Run(w, steps).g)
    decreases |steps|
  {
    if steps != [] {
      StepEvolves(w, steps[0]);
      RunEvolves(Guards.Next(w, steps[0]), steps[1..]);
    }
  }

  /** A refused call leaves no session behind, whatever other calls do to the guard
      before the undo and afterwards: the number it was given is never in use
      again, and the undo removes no other session. */
  lemma RefusedLeavesNone(w: World, tag: string, login: string, before: seq<Guards.Step>, flows: set<Flow>, nanos: int, scope: Scope, later: seq<Guards.Step>)
    requires Numbered(w.g) && TrackTo(w.g, tag, login, w.nanos).1.Granted?
    ensures var t := TrackTo(w.g, tag, login, w.nanos);
            var n := t.1.value;
            var g := Guards.Run(w.(g := t.0), before).g;
            var v := FinishTo(g, n);
            && n !in w.g.sessions
            && n !in Guards.Run(World(v, flows, nanos, scope), later).g.sessions
            && forall other :: other in g.sessions && other != n ==> other in v.sessions && v.sessions[other] == g.sessions[other]
  {
    var t := TrackTo(w.g, tag, login, w.nanos);
    TrackNumber(w.g, tag, login, w.nanos);
    assert Numbered(t.0) && t.0.next == t.1.value;
    RunEvolves(w.(g := t.0), before);
    var g := Guards.Run(w.(g := t.0), before).g;
    RunEvolves(World(FinishTo(g, t.1.value), flows, nanos, scope), later);
  }
}
