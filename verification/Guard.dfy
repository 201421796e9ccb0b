/** The isolation guard of common/beupguard/guard.go: the hot path (Track and its
    completion) against Apply and Release. Times of leases are nanoseconds on the
    boot-time line; wall time is in seconds. */
module Guards {
  import opened Text
  import opened Counters

  const SECOND := 1_000_000_000

  datatype Binding = Binding(tag: string, login: string)

  datatype Lease = Lease(id: string, identity: Identity, startedAt: int, expiresAt: int, manual: bool)

  datatype Active = Active(lease: Lease, deadline: int)

  /** One instant: the wall clock and the boot clock read together. */
  datatype Clock = Clock(wall: int, nanos: int)

  datatype Refusal = Isolated | UnknownIdentity | AtCapacity | Conflict | Ended | InvalidLease | AlreadyIsolated

  datatype Answer<+T> = Granted(value: T) | Refused(why: Refusal)

  /** The state behind the guard's mutex. `asked` are the sessions whose close
      callback has been requested. */
  datatype State = State(
    bindings: map<Binding, Identity>, leases: map<Identity, Active>, seen: map<string, Lease>, sessions: map<nat, Identity>,
    next: nat, maxSessions: nat, capacityFailures: nat, coverageFailures: nat, requiredTags: set<string>, asked: set<nat>)

  predicate Expired(a: Active, nanos: int) { !a.lease.manual && nanos >= a.deadline }

  /** A lease of the identity is in force at this boot time. */
  predicate Blocked(g: State, id: Identity, nanos: int) { id in g.leases && !Expired(g.leases[id], nanos) }

  predicate Bound(g: State, id: Identity) { exists b :: b in g.bindings && g.bindings[b] == id }

  function SessionsOf(g: State, id: Identity): set<nat> { set n | n in g.sessions && g.sessions[n] == id }

  predicate TrackingReady(g: State) {
    && g.capacityFailures == 0 && g.coverageFailures == 0
    && (g.requiredTags != {} ==> (set b | b in g.bindings :: b.tag) == g.requiredTags)
  }

  predicate IsHex(c: char) { '0' <= c <= '9' || 'a' <= c <= 'f' || 'A' <= c <= 'F' }

  /** `hex.DecodeString` to this many bytes (either case). */
  predicate Hex(s: string, bytes: nat) { |s| == 2 * bytes && forall i :: 0 <= i < |s| ==> IsHex(s[i]) }

  /** `validateLease`. */
  predicate ValidLease(l: Lease, wall: int) {
    && Hex(l.id, 16) && l.identity.uid > 0 && Hex(l.identity.credential, 32)
    && 0 < l.startedAt <= wall + 5
    && (if l.manual then l.expiresAt == 0 else l.expiresAt > wall && l.expiresAt - l.startedAt == 600)
  }

  function Deadline(l: Lease, c: Clock): int { if l.manual then 0 else c.nanos + (l.expiresAt - c.wall) * SECOND }

  // ---- the operations on values -------------------------------------------------

  /** The sessions map after `Track`, and the number of the admitted session. */
  function TrackTo(g: State, tag: string, login: string, nanos: int): (State, Answer<nat>) {
    var b := Binding(tag, login);
    if b !in g.bindings then (g.(coverageFailures := g.coverageFailures + 1), Refused(UnknownIdentity))
    else
      var id := g.bindings[b];
      if Blocked(g, id, nanos) then (g, Refused(Isolated))
      else
        var g := g.(leases := g.leases - {id});
        if |g.sessions| >= g.maxSessions then (g.(capacityFailures := g.capacityFailures + 1), Refused(AtCapacity))
        else (g.(next := g.next + 1, sessions := g.sessions[g.next + 1 := id]), Granted(g.next + 1))
  }

  function FinishTo(g: State, n: nat): State { g.(sessions := g.sessions - {n}) }

  /** Installing a lease asks every session of its identity to close. */
  function Install(g: State, l: Lease, c: Clock): State {
    g.(leases := g.leases[l.identity := Active(l, Deadline(l, c))], seen := g.seen[l.id := l], asked := g.asked + SessionsOf(g, l.identity))
  }

  function ApplyTo(g: State, l: Lease, c: Clock): (State, Answer<nat>) {
    if l.id in g.seen then
      if g.seen[l.id] != l then (g, Refused(Conflict))
      else if !Blocked(g, l.identity, c.nanos) || g.leases[l.identity].lease.id != l.id then (g, Refused(Ended))
      else (g, Granted(0))
    else if !ValidLease(l, c.wall) then (g, Refused(InvalidLease))
    else if !Bound(g, l.identity) then (g, Refused(UnknownIdentity))
    else if Blocked(g, l.identity, c.nanos) then (g, Refused(AlreadyIsolated))
    else if |g.seen| >= 10000 then (g, Refused(AtCapacity))
    else (Install(g, l, c), Granted(|SessionsOf(g, l.identity)|))
  }

  function ReleaseTo(g: State, id: string, identity: Identity): (State, Answer<()>) {
    if id !in g.seen || g.seen[id].identity != identity then (g, Refused(UnknownIdentity))
    else if identity in g.leases && g.leases[identity].lease.id == id then (g.(leases := g.leases - {identity}), Granted(()))
    else (g, Granted(()))
  }

  /** The identity has a lease that is manual or has time left. */
  predicate Stands(g: State, id: Identity, nanos: int) {
    id in g.leases && (g.leases[id].lease.manual || nanos < g.leases[id].deadline)
  }

  /** A flow is let in exactly when its login is bound, no lease of its identity stands and
      there is room; it then has one new session. A refusal changes no session, and any
      other than isolation is counted for good. */
  lemma TrackExactly(g: State, tag: string, login: string, nanos: int)
    ensures var t, b := TrackTo(g, tag, login, nanos), Binding(tag, login);
            && (t.1 == Refused(UnknownIdentity) <==> b !in g.bindings)
            && (t.1 == Refused(Isolated) <==> b in g.bindings && Stands(g, g.bindings[b], nanos))
            && (t.1.Granted? <==> b in g.bindings && !Stands(g, g.bindings[b], nanos) && |g.sessions| < g.maxSessions)
            && (t.1.Granted? ==> t.1.value > g.next && t.0.sessions == g.sessions[t.1.value := g.bindings[b]])
            && (t.1.Refused? ==> t.0.sessions == g.sessions)
            && (t.0.capacityFailures + t.0.coverageFailures > g.capacityFailures + g.coverageFailures <==> t.1.Refused? && t.1.why != Isolated)
            && (forall id :: Stands(t.0, id, nanos) <==> Stands(g, id, nanos))
  {
  }

  /** A lease is applied exactly when it is the one that stands, or is new, valid, of a
      bound identity without a standing lease, and the history has room. It then stands;
      a new one asks every session of its identity to close. A refusal changes nothing. */
  lemma ApplyExactly(g: State, l: Lease, c: Clock)
    ensures var t := ApplyTo(g, l, c);
            && (t.1.Granted? <==>
                  if l.id in g.seen then g.seen[l.id] == l && Stands(g, l.identity, c.nanos) && g.leases[l.identity].lease.id == l.id
                  else && Hex(l.id, 16) && l.identity.uid > 0 && Hex(l.identity.credential, 32) && 0 < l.startedAt <= c.wall + 5
                       && (if l.manual then l.expiresAt == 0 else l.expiresAt == l.startedAt + 600 && c.wall < l.expiresAt)
                       && (exists b :: b in g.bindings && g.bindings[b] == l.identity) && !Stands(g, l.identity, c.nanos) && |g.seen| < 10000)
            && (t.1.Granted? ==> Stands(t.0, l.identity, c.nanos) && t.0.leases[l.identity].lease.id == l.id && l.id in t.0.seen)
            && (t.1.Granted? && l.id !in g.seen ==> t.0.leases[l.identity].lease == l && SessionsOf(g, l.identity) <= t.0.asked)
            && (t.1.Refused? ==> t.0 == g) && t.0.sessions == g.sessions
            && (forall id :: id != l.identity ==> (id in t.0.leases <==> id in g.leases) && (id in g.leases ==> t.0.leases[id] == g.leases[id]))
  {
    hide Hex, SessionsOf;
  }

  /** A release succeeds exactly for a lease once seen under that identity; it then does
      not stand, and no other lease is touched. */
  lemma ReleaseExactly(g: State, id: string, identity: Identity)
    ensures var t := ReleaseTo(g, id, identity);
            && (t.1.Granted? <==> id in g.seen && g.seen[id].identity == identity)
            && (t.1.Granted? ==> !(identity in t.0.leases && t.0.leases[identity].lease.id == id))
            && (forall x :: x in g.leases && !(x == identity && g.leases[x].lease.id == id) ==> x in t.0.leases && t.0.leases[x] == g.leases[x])
            && (forall x :: x in t.0.leases ==> x in g.leases && t.0.leases[x] == g.leases[x])
            && (t.1.Refused? ==> t.0 == g) && t.0.sessions == g.sessions && t.0.seen == g.seen
  {
  }

  // ---- the guard object -----------------------------------------------------------

  class Guard {
    var bindings: map<Binding, Identity>
    var leases: map<Identity, Active>
    var seen: map<string, Lease>
    var sessions: map<nat, Identity>
    var next: nat
    var maxSessions: nat
    var capacityFailures: nat
    var coverageFailures: nat
    var requiredTags: set<string>
    ghost var asked: set<nat>

    ghost function View(): State
      reads this
    {
      State(bindings, leases, seen, sessions, next, maxSessions, capacityFailures, coverageFailures, requiredTags, asked)
    }

    constructor (limit: int)
      ensures View() == State(map[], map[], map[], map[], 0, if limit <= 0 then 65536 else limit, 0, 0, {}, {})
    {
      bindings, leases, seen, sessions, next := map[], map[], map[], map[], 0;
      maxSessions := if limit <= 0 then 65536 else limit;
      capacityFailures, coverageFailures, requiredTags, asked := 0, 0, {}, {};
    }

    method Bind(tag: string, login: string, id: Identity)
      modifies this`bindings
      ensures bindings == if id.uid <= 0 || tag == "" || login == "" || id.credential == "" then old(bindings) else old(bindings)[Binding(tag, login) := id]
    {
      if id.uid <= 0 || tag == "" || login == "" || id.credential == "" {
        return;
      }
      bindings := bindings[Binding(tag, login) := id];
    }

    method Unbind(tag: string, login: string)
      modifies this`bindings
      ensures bindings == old(bindings) - {Binding(tag, login)}
    {
      bindings := bindings - {Binding(tag, login)};
    }

    method NoteCoverageFailure()
      modifies this`coverageFailures
      ensures coverageFailures == old(coverageFailures) + 1
    {
      coverageFailures := coverageFailures + 1;
    }

    method CheckTrackingReady() returns (ready: bool)
      ensures ready <==> TrackingReady(View())
    {
      if capacityFailures != 0 || coverageFailures != 0 {
        return false;
      }
      if |requiredTags| == 0 {
        return true;
      }
      var left, found := bindings.Keys, {};
      while left != {}
        invariant left <= bindings.Keys
        invariant found == set b | b in bindings && b !in left :: b.tag
        invariant found <= requiredTags
      {
        var b :| b in left;
        if b.tag !in requiredTags {
          assert b.tag in (set b | b in bindings :: b.tag);
          return false;
        }
        found := found + {b.tag};
        left := left - {b};
      }
      assert found == set b | b in bindings :: b.tag;
      Subset(found, requiredTags);
      return |found| == |requiredTags|;
    }

    method Track(tag: string, login: string, c: Clock) returns (r: Answer<nat>)
      modifies this`leases, this`sessions, this`next, this`capacityFailures, this`coverageFailures
      ensures (View(), r) == TrackTo(old(View()), tag, login, c.nanos)
    {
      var b := Binding(tag, login);
      if b !in bindings {
        coverageFailures := coverageFailures + 1;
        return Refused(UnknownIdentity);
      }
      var id := bindings[b];
      if id in leases {
        if !Expired(leases[id], c.nanos) {
          return Refused(Isolated);
        }
        leases := leases - {id};
      } else {
        assert leases - {id} == leases;
      }
      if |sessions| >= maxSessions {
        capacityFailures := capacityFailures + 1;
        return Refused(AtCapacity);
      }
      next := next + 1;
      sessions := sessions[next := id];
      return Granted(next);
    }

    /** The completion of a tracked session; a second call changes nothing. */
    method Finish(n: nat)
      modifies this`sessions
      ensures View() == FinishTo(old(View()), n)
    {
      sessions := sessions - {n};
    }

    /** The numbers of the sessions of an identity, collected by a loop. */
    method Collect(id: Identity) returns (found: set<nat>)
      ensures found == SessionsOf(View(), id)
    {
      var left := sessions.Keys;
      found := {};
      while left != {}
        invariant left <= sessions.Keys
        invariant found == set n | n in sessions && n !in left && sessions[n] == id
      {
        var n :| n in left;
        if sessions[n] == id {
          found := found + {n};
        }
        left := left - {n};
      }
    }

    method IsBound(id: Identity) returns (found: bool)
      ensures found <==> Bound(View(), id)
    {
      var left := bindings.Keys;
      while left != {}
        invariant left <= bindings.Keys
        invariant forall b :: b in bindings && b !in left ==> bindings[b] != id
      {
        var b :| b in left;
        if bindings[b] == id {
          return true;
        }
        left := left - {b};
      }
      return false;
    }

    method Apply(l: Lease, c: Clock) returns (r: Answer<nat>)
      modifies this`leases, this`seen, this`asked
      ensures (View(), r) == ApplyTo(old(View()), l, c)
    {
      if l.id in seen {
        if seen[l.id] != l {
          return Refused(Conflict);
        }
        if l.identity !in leases || leases[l.identity].lease.id != l.id || Expired(leases[l.identity], c.nanos) {
          return Refused(Ended);
        }
        return Granted(0);
      }
      if !ValidLease(l, c.wall) {
        return Refused(InvalidLease);
      }
      var bound := IsBound(l.identity);
      if !bound {
        return Refused(UnknownIdentity);
      }
      if l.identity in leases && !Expired(leases[l.identity], c.nanos) {
        return Refused(AlreadyIsolated);
      }
      if |seen| >= 10000 {
        return Refused(AtCapacity);
      }
      var closes := Collect(l.identity);
      leases := leases[l.identity := Active(l, Deadline(l, c))];
      seen := seen[l.id := l];
      asked := asked + closes;
      return Granted(|closes|);
    }

    method Outstanding(id: Identity) returns (n: nat)
      ensures n == |SessionsOf(View(), id)|
    {
      var found := Collect(id);
      return |found|;
    }

    method Release(id: string, identity: Identity) returns (r: Answer<()>)
      modifies this`leases
      ensures (View(), r) == ReleaseTo(old(View()), id, identity)
    {
      if id !in seen || seen[id].identity != identity {
        return Refused(UnknownIdentity);
      }
      if identity in leases && leases[identity].lease.id == id {
        leases := leases - {identity};
      }
      return Granted(());
    }
  }

  lemma Subset(a: set<string>, b: set<string>)
    requires a <= b
    ensures |a| == |b| <==> a == b
  {
    assert b == a + (b - a);
  }

  // ---- flows ----------------------------------------------------------------------

  /** A connection the proxy is serving on an inbound; one that was not admitted by
      `Track` but kept going has no session. */
  datatype Flow = Flow(identity: Identity, session: Option<nat>, tag: string)

  /** The inbounds whose flows and bindings reach the guard; `None` is all of them. */
  type Scope = Option<set<string>>

  predicate InScope(scope: Scope, tag: string) { scope.None? || tag in scope.value }

  datatype World = World(g: State, flows: set<Flow>, nanos: int, scope: Scope)

  datatype Step =
    | Tick(nanos: int)
    | Bind(binding: Binding, identity: Identity)
    | Unbind(binding: Binding)
    | Note
    | Open(tag: string, login: string, identity: Identity) // authenticated as `identity`, then tracked
    | Close(flow: Flow)                                    // the handler returns, then the completion runs
    | Apply(lease: Lease, wall: int)
    | Release(id: string, identity: Identity)

  /** A flow whose identity is known is tracked under it; a refused flow is not
      served when isolated and may be served untracked otherwise. A flow on an inbound
      outside the scope is served without the guard hearing of it. */
  predicate Admitted(g: State, step: Step) requires step.Open? {
    Binding(step.tag, step.login) in g.bindings ==> g.bindings[Binding(step.tag, step.login)] == step.identity
  }

  function Next(w: World, step: Step): World {
    match step
    case Tick(nanos) => if nanos >= w.nanos then w.(nanos := nanos) else w
    case Bind(b, id) => if InScope(w.scope, b.tag) then w.(g := w.g.(bindings := w.g.bindings[b := id])) else w
    case Unbind(b) => w.(g := w.g.(bindings := w.g.bindings - {b}))
    case Note => w.(g := w.g.(coverageFailures := w.g.coverageFailures + 1))
    case Open(tag, login, id) =>
      if !InScope(w.scope, tag) then w.(flows := w.flows + {Flow(id, None, tag)})
      else if !Admitted(w.g, step) then w
      else
        var t := TrackTo(w.g, tag, login, w.nanos);
        (match t.1
         case Granted(n) => w.(g := t.0, flows := w.flows + {Flow(id, Some(n), tag)})
         case Refused(why) => w.(g := t.0, flows := if why == Isolated then w.flows else w.flows + {Flow(id, None, tag)}))
    case Close(f) =>
      if f !in w.flows then w
      else w.(flows := w.flows - {f}, g := if f.session.Some? then FinishTo(w.g, f.session.value) else w.g)
    case Apply(l, wall) => w.(g := ApplyTo(w.g, l, Clock(wall, w.nanos)).0)
    case Release(id, identity) => w.(g := ReleaseTo(w.g, id, identity).0)
  }

  function Run(w: World, steps: seq<Step>): World
    decreases |steps|
  {
    if steps == [] then w else Run(Next(w, steps[0]), steps[1..])
  }

  /** Every tracked flow has its session, an untracked one in scope has left a failure
      count, session numbers are not reused, and while an identity is blocked all
      its sessions have been asked to close. */
  ghost predicate Inv(w: World) {
    && (forall f :: f in w.flows && f.session.Some? ==> f.session.value in w.g.sessions && w.g.sessions[f.session.value] == f.identity)
    && (forall f :: f in w.flows && f.session.None? && InScope(w.scope, f.tag) ==> w.g.capacityFailures + w.g.coverageFailures > 0)
    && (forall n :: n in w.g.sessions ==> n <= w.g.next)
    && (forall f, h :: f in w.flows && h in w.flows && f.session.Some? && f.session == h.session ==> f == h)
    && (forall id :: Blocked(w.g, id, w.nanos) ==> SessionsOf(w.g, id) <= w.g.asked)
  }

  lemma StepKeeps(w: World, step: Step)
    requires Inv(w)
    ensures Inv(Next(w, step))
  {
    var v := Next(w, step);
    match step
    case Tick(nanos) =>
      forall id | Blocked(v.g, id, v.nanos) ensures SessionsOf(v.g, id) <= v.g.asked { assert Blocked(w.g, id, w.nanos); }
    case Bind(b, id) => SameGuard(w, v);
    case Unbind(b) => SameGuard(w, v);
    case Note => SameGuard(w, v);
    case Open(tag, login, id) => if InScope(w.scope, tag) && Admitted(w.g, step) { OpenKeeps(w, tag, login, id); }
    case Close(f) => if f in w.flows { CloseKeeps(w, f); }
    case Apply(l, wall) => ApplyKeeps(w, l, wall);
    case Release(id, identity) =>
      forall i | Blocked(v.g, i, v.nanos) ensures SessionsOf(v.g, i) <= v.g.asked { assert Blocked(w.g, i, w.nanos) && SessionsOf(v.g, i) == SessionsOf(w.g, i); }
  }

  lemma SameGuard(w: World, v: World)
    requires Inv(w) && v.flows == w.flows && v.scope == w.scope && v.nanos == w.nanos && v.g.leases == w.g.leases && v.g.sessions == w.g.sessions && v.g.next == w.g.next && v.g.asked == w.g.asked
    requires v.g.capacityFailures >= w.g.capacityFailures && v.g.coverageFailures >= w.g.coverageFailures
    ensures Inv(v)
  {
    forall id | Blocked(v.g, id, v.nanos) ensures SessionsOf(v.g, id) <= v.g.asked { assert Blocked(w.g, id, w.nanos) && SessionsOf(v.g, id) == SessionsOf(w.g, id); }
  }

  lemma OpenKeeps(w: World, tag: string, login: string, id: Identity)
    requires Inv(w) && Admitted(w.g, Open(tag, login, id)) && InScope(w.scope, tag)
    ensures Inv(Next(w, Open(tag, login, id)))
  {
    var v := Next(w, Open(tag, login, id));
    forall i | Blocked(v.g, i, v.nanos) ensures SessionsOf(v.g, i) <= v.g.asked {
      assert Blocked(w.g, i, w.nanos);
      assert SessionsOf(v.g, i) == SessionsOf(w.g, i);
    }
  }

  lemma CloseKeeps(w: World, f: Flow)
    requires Inv(w) && f in w.flows
    ensures Inv(Next(w, Close(f)))
  {
    var v := Next(w, Close(f));
    forall i | Blocked(v.g, i, v.nanos) ensures SessionsOf(v.g, i) <= v.g.asked {
      assert Blocked(w.g, i, w.nanos);
      assert SessionsOf(v.g, i) <= SessionsOf(w.g, i);
    }
  }

  lemma ApplyKeeps(w: World, l: Lease, wall: int)
    requires Inv(w)
    ensures Inv(Next(w, Apply(l, wall)))
  {
    var v := Next(w, Apply(l, wall));
    forall i | Blocked(v.g, i, v.nanos) ensures SessionsOf(v.g, i) <= v.g.asked {
      assert SessionsOf(v.g, i) == SessionsOf(w.g, i);
      if i != l.identity { assert Blocked(w.g, i, w.nanos) <==> Blocked(v.g, i, v.nanos); }
    }
  }

  lemma {:induction false} RunKeeps(w: World, steps: seq<Step>)
    requires Inv(w)
    ensures Inv(Run(w, steps))
    decreases |steps|
  {
    if steps != [] {
      StepKeeps(w, steps[0]);
      RunKeeps(Next(w, steps[0]), steps[1..]);
    }
  }

  /** While an identity is blocked no session of it is admitted: over any steps
      that do not release its lease and end before its deadline, its session set
      only shrinks, and every session in it has been asked to close. */
  lemma {:induction false} BlockedShrinks(w: World, steps: seq<Step>, id: Identity)
    requires Inv(w) && Blocked(w.g, id, w.nanos) && Blocked(w.g, id, Run(w, steps).nanos)
    requires forall i :: 0 <= i < |steps| ==> !(steps[i].Release? && steps[i].identity == id && steps[i].id == w.g.leases[id].lease.id)
    ensures var v := Run(w, steps);
            && v.g.leases[id := w.g.leases[id]] == v.g.leases && Blocked(v.g, id, v.nanos)
            && SessionsOf(v.g, id) <= SessionsOf(w.g, id) && SessionsOf(v.g, id) <= v.g.asked
    decreases |steps|
  {
    if steps == [] {
      assert w.g.leases[id := w.g.leases[id]] == w.g.leases;
    } else {
      var x := Next(w, steps[0]);
      StepKeeps(w, steps[0]);
      TimeForward(x, steps[1..]);
      assert x.nanos <= Run(w, steps).nanos;
      StepBlocked(w, steps[0], id);
      BlockedShrinks(x, steps[1..], id);
    }
  }

  lemma StepBlocked(w: World, step: Step, id: Identity)
    requires Inv(w) && Blocked(w.g, id, w.nanos) && Blocked(w.g, id, Next(w, step).nanos)
    requires !(step.Release? && step.identity == id && step.id == w.g.leases[id].lease.id)
    ensures var v := Next(w, step);
            id in v.g.leases && v.g.leases[id] == w.g.leases[id] && SessionsOf(v.g, id) <= SessionsOf(w.g, id)
  {
  }

  lemma {:induction false} TimeForward(w: World, steps: seq<Step>)
    ensures w.nanos <= Run(w, steps).nanos
    decreases |steps|
  {
    if steps != [] { TimeForward(Next(w, steps[0]), steps[1..]); }
  }

  /** Honest acknowledgement: if tracking is ready, the identity is blocked and has no
      session, then no flow of it, tracked or not, is running on an inbound in scope. */
  lemma NoFlowLeft(w: World, steps: seq<Step>, id: Identity)
    requires Inv(w)
    requires var v := Run(w, steps); TrackingReady(v.g) && Blocked(v.g, id, v.nanos) && SessionsOf(v.g, id) == {}
    ensures var v := Run(w, steps);
            forall f :: f in v.flows && f.identity == id ==> !InScope(v.scope, f.tag)
  {
    RunKeeps(w, steps);
    var v := Run(w, steps);
    forall f | f in v.flows && f.session.Some? ensures f.identity != id { assert f.session.value !in SessionsOf(v.g, id); }
  }

  predicate OpensIn(scope: Scope, step: Step) { step.Open? ==> InScope(scope, step.tag) }

  /** A condition on the inbounds that are served: if all of them are in scope, every
      flow is on an inbound in scope. */
  lemma {:induction false} ServedInScope(w: World, steps: seq<Step>)
    requires forall f :: f in w.flows ==> InScope(w.scope, f.tag)
    requires forall i :: 0 <= i < |steps| ==> OpensIn(w.scope, steps[i])
    ensures Run(w, steps).scope == w.scope && forall f :: f in Run(w, steps).flows ==> InScope(w.scope, f.tag)
    decreases |steps|
  {
    if steps != [] {
      hide TrackTo, ApplyTo, ReleaseTo;
      var v := Next(w, steps[0]);
      assert OpensIn(w.scope, steps[0]);
      ServedInScope(v, steps[1..]);
    }
  }

  lemma FailuresGrow(w: World, step: Step)
    ensures Next(w, step).g.capacityFailures >= w.g.capacityFailures && Next(w, step).g.coverageFailures >= w.g.coverageFailures
  {
  }

  /** An untracked flow spoils readiness for good: the failure counts never fall. */
  lemma {:induction false} FailuresStick(w: World, steps: seq<Step>)
    requires w.g.capacityFailures + w.g.coverageFailures > 0
    ensures !TrackingReady(Run(w, steps).g)
    decreases |steps|
  {
    if steps != [] {
      FailuresGrow(w, steps[0]);
      hide Next, TrackingReady;
      FailuresStick(Next(w, steps[0]), steps[1..]);
    }
  }
}
