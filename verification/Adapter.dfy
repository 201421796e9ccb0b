/** The migration-hold adapter of common/beuptransfer/adapter_guard.go: its own
    guard, the identities it holds, and admission under two mutexes. */
module Adapters {
  import opened Text
  import opened Counters
  import G = Guards
  import J = Journals

  /** `bindings` and `holds` live under the adapter's mutex, `g` under the guard's.
      `passed` are the logins that a `Track` has checked but not yet handed to the
      guard, `flows` the connections the proxy serves. */
  datatype State = State(
    tag: string, bindings: map<string, Identity>, holds: set<Identity>, incomplete: set<Identity>, restored: set<Identity>,
    quiescing: bool, g: G.State, passed: set<string>, flows: set<G.Flow>)

  predicate Bound(a: State, id: Identity) { exists l :: l in a.bindings && a.bindings[l] == id }

  /** `Track`, first half: no closing identity passes. An unknown login passes and
      is then refused by the guard. */
  predicate Passes(a: State, login: string) {
    !a.quiescing && (login in a.bindings ==> a.bindings[login] !in a.holds)
  }

  function CheckTo(a: State, login: string): State {
    if Passes(a, login) then a.(passed := a.passed + {login}) else a
  }

  /** `Track`, second half, for a flow authenticated as `who`. The host closes a flow
      that is refused, whatever the reason. */
  function AdmitTo(a: State, login: string, nanos: int, who: Identity): (State, G.Answer<nat>) {
    var t := G.TrackTo(a.g, a.tag, login, nanos);
    (a.(g := t.0, passed := a.passed - {login}, flows := Serving(a, who, t.1)), t.1)
  }

  function Serving(a: State, who: Identity, r: G.Answer<nat>): set<G.Flow> {
    if r.Granted? then a.flows + {G.Flow(who, Some(r.value), a.tag)} else a.flows
  }

  /** A login that is bound authenticates as its identity. */
  predicate Authentic(a: State, login: string, who: Identity) { login in a.bindings ==> a.bindings[login] == who }

  /** `NoteIdentityCoverageFailure`. */
  function NoteTo(a: State, login: string): State {
    if login in a.bindings then a.(incomplete := a.incomplete + {a.bindings[login]}) else a.(g := a.g.(coverageFailures := a.g.coverageFailures + 1))
  }

  /** A flow that the host cannot attribute is served without `Track`, and noted. */
  function StrayTo(a: State, who: Identity): State {
    a.(g := a.g.(coverageFailures := a.g.coverageFailures + 1), flows := a.flows + {G.Flow(who, None, a.tag)})
  }

  /** A flow with a command that is not tracked completely, noted before, starts an
      untracked child. */
  function SpawnTo(a: State, f: G.Flow): State {
    if f in a.flows && f.identity in a.incomplete then a.(flows := a.flows + {G.Flow(f.identity, None, a.tag)}) else a
  }

  /** The handler of a flow returns, then its completion runs. */
  function CloseTo(a: State, f: G.Flow): State {
    if f !in a.flows then a else a.(flows := a.flows - {f}, g := if f.session.Some? then G.FinishTo(a.g, f.session.value) else a.g)
  }

  function LoginsOf(a: State, id: Identity): set<string> { set l | l in a.bindings && a.bindings[l] == id }

  predicate Ready(a: State, id: Identity) { id !in a.incomplete && a.g.capacityFailures == 0 && a.g.coverageFailures == 0 }

  /** The answer of `Inspect`. */
  function InspectTo(a: State, epoch: string, id: Identity): J.FenceStatus {
    var n := |LoginsOf(a, id)|;
    J.FenceStatus(epoch, id, id in a.holds, |G.SessionsOf(a.g, id)|, Ready(a, id), if n == 0 && id in a.restored then 1 else n)
  }

  function FenceTo(a: State, id: Identity, leaseId: string, c: G.Clock): (State, Result<()>) {
    if id.uid <= 0 || !ValidHex(id.credential, 32) then (a, Fail(ErrCoverage))
    else if id in a.holds then (a, Ok(()))
    else if !Bound(a, id) && id in a.restored then (a.(holds := a.holds + {id}), Ok(()))
    else
      var t := G.ApplyTo(a.g, G.Lease(leaseId, id, c.wall, 0, true), c);
      if t.1.Refused? then (a.(g := t.0), Fail(ErrOther)) else (a.(g := t.0, holds := a.holds + {id}), Ok(()))
  }

  predicate MayBind(a: State, login: string, id: Identity) {
    && login != "" && |login| <= 1024 && id.uid > 0 && id.credential != "" && !a.quiescing
    && (login in a.bindings ==> a.bindings[login] == id)
    && (login !in a.bindings ==> |a.bindings| < MAX_SAMPLES)
  }

  function BindTo(a: State, login: string, id: Identity): State {
    if login == "" || |login| > 1024 || id.uid <= 0 || id.credential == "" then a.(g := a.g.(coverageFailures := a.g.coverageFailures + 1))
    else if a.quiescing then a
    else if !MayBind(a, login, id) then a.(g := a.g.(coverageFailures := a.g.coverageFailures + 1))
    else a.(bindings := a.bindings[login := id], g := a.g.(bindings := a.g.bindings[G.Binding(a.tag, login) := id]))
  }

  // ---- the adapter object ------------------------------------------------------------

  class GuardAdapter {
    const guard: G.Guard
    const tag: string
    const epoch: string
    var bindings: map<string, Identity>
    var holds: set<Identity>
    var incomplete: set<Identity>
    var restored: set<Identity>
    var quiescing: bool
    var passed: set<string>
    var flows: set<G.Flow>

    ghost function View(): State
      reads this, guard
    {
      State(tag, bindings, holds, incomplete, restored, quiescing, guard.View(), passed, flows)
    }

    constructor (tag: string, epoch: string)
      requires 0 < |tag| <= 512
      ensures fresh(guard) && this.tag == tag && this.epoch == epoch
      ensures View() == State(tag, map[], {}, {}, {}, false, G.State(map[], map[], map[], map[], 0, 65536, 0, 0, {tag}, {}), {}, {})
    {
      this.tag, this.epoch := tag, epoch;
      var g := new G.Guard(65536);
      g.requiredTags := {tag};
      guard := g;
      bindings, holds, incomplete, restored, quiescing, passed, flows := map[], {}, {}, {}, false, {}, {};
    }

    method Bind(login: string, id: Identity) returns (r: Result<()>)
      requires tag != ""
      modifies this`bindings, guard`bindings, guard`coverageFailures
      ensures View() == BindTo(old(View()), login, id) && (r.Ok? <==> MayBind(old(View()), login, id))
    {
      if login == "" || |login| > 1024 || id.uid <= 0 || id.credential == "" {
        guard.NoteCoverageFailure();
        return Fail(ErrCoverage);
      }
      if quiescing {
        return Fail(ErrPending);
      }
      if login in bindings && bindings[login] != id {
        guard.NoteCoverageFailure();
        return Fail(ErrOther);
      }
      if login !in bindings && |bindings| >= MAX_SAMPLES {
        guard.NoteCoverageFailure();
        return Fail(ErrCoverage);
      }
      guard.Bind(tag, login, id);
      bindings := bindings[login := id];
      return Ok(());
    }

    /** `Track` when nothing runs between its two halves. */
    method Track(login: string, c: G.Clock, who: Identity) returns (r: G.Answer<nat>)
      modifies this`passed, this`flows, guard`leases, guard`sessions, guard`next, guard`capacityFailures, guard`coverageFailures
      ensures if Passes(old(View()), login)
              then (View(), r) == AdmitTo(CheckTo(old(View()), login), login, c.nanos, who)
              else View() == old(View()) && r == G.Refused(G.Isolated)
    {
      var passes := CheckHalf(login);
      if !passes {
        return G.Refused(G.Isolated);
      }
      r := AdmitHalf(login, c, who);
    }

    /** The part of `Track` under the adapter's own mutex. */
    method CheckHalf(login: string) returns (passes: bool)
      modifies this`passed
      ensures passes == Passes(old(View()), login) && View() == CheckTo(old(View()), login)
    {
      var closing := quiescing || (login in bindings && bindings[login] in holds);
      if closing {
        return false;
      }
      passed := passed + {login};
      return true;
    }

    /** ... and under the guard's. */
    method AdmitHalf(login: string, c: G.Clock, who: Identity) returns (r: G.Answer<nat>)
      modifies this`passed, this`flows, guard`leases, guard`sessions, guard`next, guard`capacityFailures, guard`coverageFailures
      ensures (View(), r) == AdmitTo(old(View()), login, c.nanos, who)
    {
      hide G.TrackTo;
      r := guard.Track(tag, login, c);
      passed := passed - {login};
      if r.Granted? {
        flows := flows + {G.Flow(who, Some(r.value), tag)};
      }
    }

    method NoteIdentityCoverageFailure(login: string)
      modifies this`incomplete, guard`coverageFailures
      ensures View() == NoteTo(old(View()), login)
    {
      if login in bindings {
        incomplete := incomplete + {bindings[login]};
      } else {
        guard.NoteCoverageFailure();
      }
    }

    method Inspect(id: Identity) returns (s: J.FenceStatus)
      ensures s == InspectTo(View(), epoch, id)
    {
      var found := CountLogins(id);
      var n := |found|;
      if n == 0 && id in restored {
        n := 1;
      }
      var outstanding := guard.Outstanding(id);
      s := J.FenceStatus(epoch, id, id in holds, outstanding, id !in incomplete && guard.capacityFailures == 0 && guard.coverageFailures == 0, n);
    }

    /** The logins of an identity, collected by a loop. */
    method CountLogins(id: Identity) returns (found: set<string>)
      ensures found == LoginsOf(View(), id)
    {
      var left := bindings.Keys;
      found := {};
      while left != {}
        invariant left <= bindings.Keys
        invariant found == set l | l in bindings && l !in left && bindings[l] == id
      {
        var l :| l in left;
        if bindings[l] == id {
          found := found + {l};
        }
        left := left - {l};
      }
    }

    /** Other goroutines act on the adapter. */
    method Elapse(steps: seq<Step>)
      requires tag != ""
      modifies this, guard
      ensures View() == Run(old(View()), steps)
    {
      hide Next;
      for i := 0 to |steps|
        invariant Run(View(), steps[i..]) == Run(old(View()), steps)
      {
        assert steps[i..][0] == steps[i] && steps[i..][1..] == steps[i + 1..];
        Act(steps[i]);
      }
    }

    method Act(step: Step)
      requires tag != ""
      modifies this, guard
      ensures View() == Next(old(View()), step)
    {
      hide G.TrackTo, G.ApplyTo, ValidHex;
      match step {
        case Bind(login, id) => if !(login in passed && login !in bindings) { var _ := Bind(login, id); }
        case Check(login) => var _ := CheckHalf(login);
        case Admit(login, nanos, who) => if login in passed && (login in bindings ==> bindings[login] == who) { var _ := AdmitHalf(login, G.Clock(0, nanos), who); }
        case Close(f) => EndFlow(f);
        case Fence(id, leaseId, c) => var _ := Fence(id, leaseId, c);
        case Quiesce => quiescing := true;
        case Note(login) => NoteIdentityCoverageFailure(login);
        case Stray(who) =>
          guard.NoteCoverageFailure();
          flows := flows + {G.Flow(who, None, tag)};
        case Spawn(f) =>
          if f in flows && f.identity in incomplete {
            flows := flows + {G.Flow(f.identity, None, tag)};
          }
      }
    }

    method EndFlow(f: G.Flow)
      modifies this`flows, guard`sessions
      ensures View() == CloseTo(old(View()), f)
    {
      if f in flows {
        flows := flows - {f};
        if f.session.Some? {
          guard.Finish(f.session.value);
        }
      }
    }

    method Fence(id: Identity, leaseId: string, c: G.Clock) returns (r: Result<()>)
      modifies this`holds, guard`leases, guard`seen, guard`asked
      ensures (View(), r) == FenceTo(old(View()), id, leaseId, c)
    {
      if id.uid <= 0 || !ValidHex(id.credential, 32) {
        return Fail(ErrCoverage);
      }
      if id in holds {
        return Ok(());
      }
      var isBound := exists l :: l in bindings && bindings[l] == id;
      if !isBound && id in restored {
        holds := holds + {id};
        return Ok(());
      }
      var applied := guard.Apply(G.Lease(leaseId, id, c.wall, 0, true), c);
      if applied.Refused? {
        return Fail(ErrOther);
      }
      holds := holds + {id};
      return Ok(());
    }

    /** Fences one identity after another; stops at the first refusal. */
    method FenceAll(ids: set<Identity>, leaseId: Identity -> string, c: G.Clock) returns (r: Result<()>)
      modifies this`holds, guard`leases, guard`seen, guard`asked
      ensures r.Ok? ==> ids <= holds
      ensures old(holds) <= holds && Fencing(old(View()), View())
      // on an adapter that knows no login, only held and restored identities can be fenced
      ensures Unused(old(View())) ==> (r.Ok? <==> forall id :: id in ids ==> Fenceable(old(View()), id))
      decreases |ids|
    {
      hide Fencing;
      FencingNone(View());
      var left := ids;
      while left != {}
        invariant left <= ids && ids - left <= holds && old(holds) <= holds && Fencing(old(View()), View())
        invariant Unused(old(View())) ==> Unused(View()) && forall id :: Fenceable(View(), id) <==> Fenceable(old(View()), id)
        invariant Unused(old(View())) ==> forall id :: id in ids - left ==> Fenceable(old(View()), id)
        decreases |left|
      {
        var id :| id in left;
        ghost var before := View();
        if Unused(before) { FenceUnused(before, id, leaseId(id), c); }
        var one := Fence(id, leaseId(id), c);
        FencingStep(old(View()), before, id, leaseId(id), c);
        if one.Fail? {
          return one;
        }
        left := left - {id};
      }
      return Ok(());
    }

    method Quiesce(leaseId: Identity -> string, c: G.Clock) returns (r: Result<()>)
      modifies this`holds, this`quiescing, guard`leases, guard`seen, guard`asked
      ensures quiescing && old(holds) <= holds && (Inv(old(View())) ==> Inv(View()))
      ensures r.Ok? ==> restored <= holds && forall l :: l in bindings ==> bindings[l] in holds
    {
      if Inv(View()) { QuiesceKeeps(View()); }
      quiescing := true;
      hide Inv;
      var ids := (set l | l in bindings :: bindings[l]) + restored;
      r := FenceAll(ids, leaseId, c);
    }

    /** Only on a fresh adapter: nothing bound, held or restored. */
    method RestoreSealedIdentities(ids: seq<Identity>) returns (r: Result<()>)
      modifies this`restored
      ensures r.Ok? <==>
              && old(|bindings| == 0 && holds == {} && restored == {} && !quiescing) && |ids| <= MAX_SAMPLES
              && (forall i :: 0 <= i < |ids| ==> ids[i].uid > 0 && ValidHex(ids[i].credential, 32))
              && forall i, k :: 0 <= i < k < |ids| ==> ids[i] != ids[k]
      ensures restored == if r.Ok? then set i | 0 <= i < |ids| :: ids[i] else old(restored)
    {
      if |bindings| != 0 || holds != {} || restored != {} || quiescing || |ids| > MAX_SAMPLES {
        return Fail(ErrCoverage);
      }
      var found: set<Identity> := {};
      for i := 0 to |ids|
        invariant found == set k | 0 <= k < i :: ids[k]
        invariant forall k :: 0 <= k < i ==> ids[k].uid > 0 && ValidHex(ids[k].credential, 32)
        invariant forall h, k :: 0 <= h < k < i ==> ids[h] != ids[k]
      {
        if ids[i].uid <= 0 || !ValidHex(ids[i].credential, 32) || ids[i] in found {
          return Fail(ErrCoverage);
        }
        found := found + {ids[i]};
      }
      restored := found;
      return Ok(());
    }
  }

  // ---- held identities stay out ---------------------------------------------------------

  /** `b` follows from `a` by fencing alone. */
  ghost predicate Fencing(a: State, b: State) {
    && b.tag == a.tag && b.bindings == a.bindings && b.restored == a.restored && b.quiescing == a.quiescing && b.passed == a.passed
    && b.flows == a.flows && b.incomplete == a.incomplete && a.holds <= b.holds && b.g.sessions == a.g.sessions && b.g.bindings == a.g.bindings
    && (Inv(a) ==> Inv(b))
  }

  lemma FencingNone(a: State)
    ensures Fencing(a, a)
  {
  }

  /** No login has been bound and no lease asked for. */
  predicate Unused(a: State) { a.bindings == map[] && a.g.bindings == map[] && a.g.seen == map[] }

  predicate Fenceable(a: State, id: Identity) { id.uid > 0 && ValidHex(id.credential, 32) && (id in a.holds || id in a.restored) }

  lemma FenceUnused(a: State, id: Identity, leaseId: string, c: G.Clock)
    requires Unused(a)
    ensures var t := FenceTo(a, id, leaseId, c);
            && (t.1.Ok? <==> Fenceable(a, id)) && Unused(t.0) && forall x :: Fenceable(t.0, x) <==> Fenceable(a, x)
  {
    hide ValidHex, G.ValidLease;
  }

  lemma FencingStep(a: State, b: State, id: Identity, leaseId: string, c: G.Clock)
    requires Fencing(a, b)
    ensures Fencing(a, FenceTo(b, id, leaseId, c).0)
    ensures b.holds <= FenceTo(b, id, leaseId, c).0.holds
  {
    if Inv(b) { FenceKeeps(b, id, leaseId, c); }
  }

  /** The guard knows every login under its identity, and a held identity is kept
      out by the guard or has no login that has already passed the check. */
  ghost predicate Admission(a: State) {
    && (forall l :: l in a.bindings <==> G.Binding(a.tag, l) in a.g.bindings)
    && (forall l :: l in a.bindings ==> a.g.bindings[G.Binding(a.tag, l)] == a.bindings[l])
    && (forall id :: id in a.g.leases ==> a.g.leases[id].lease.manual)
    && (forall id :: id in a.holds ==> Kept(a, id))
  }

  /** A flow has its own session under its identity, or has left a mark. */
  ghost predicate Accounted(a: State) {
    && (forall n :: n in a.g.sessions ==> n <= a.g.next)
    && (forall f :: f in a.flows && f.session.Some? ==> f.session.value in a.g.sessions && a.g.sessions[f.session.value] == f.identity)
    && (forall f :: f in a.flows && f.session.None? ==> !Ready(a, f.identity))
    && (forall f, h :: f in a.flows && h in a.flows && f.session.Some? && f.session == h.session ==> f == h)
  }

  ghost predicate Inv(a: State) { Admission(a) && Accounted(a) }

  type Steady = a: State | Inv(a) ghost witness State("", map[], {}, {}, {}, false, G.State(map[], map[], map[], map[], 0, 0, 0, 0, {}, {}), {}, {})

  ghost predicate Kept(a: State, id: Identity) {
    || (id in a.g.leases && a.g.leases[id].lease.manual)
    || (forall l :: l in a.passed && l in a.bindings ==> a.bindings[l] != id)
  }

  datatype Step =
    | Bind(login: string, identity: Identity)
    | Check(login: string)
    | Admit(login: string, nanos: int, who: Identity)
    | Close(flow: G.Flow)
    | Fence(identity: Identity, leaseId: string, clock: G.Clock)
    | Quiesce
    | Note(login: string)
    | Stray(who: Identity)
    | Spawn(flow: G.Flow)

  function Next(a: State, step: Step): State {
    match step
    // a login is bound before it is tracked: no unknown login is between its halves
    case Bind(login, id) => if login in a.passed && login !in a.bindings then a else BindTo(a, login, id)
    case Check(login) => CheckTo(a, login)
    case Admit(login, nanos, who) => if login in a.passed && Authentic(a, login, who) then AdmitTo(a, login, nanos, who).0 else a
    case Close(f) => CloseTo(a, f)
    case Fence(id, leaseId, c) => FenceTo(a, id, leaseId, c).0
    case Quiesce => a.(quiescing := true)
    case Note(login) => NoteTo(a, login)
    case Stray(who) => StrayTo(a, who)
    case Spawn(f) => SpawnTo(a, f)
  }

  function Run(a: State, steps: seq<Step>): State
    decreases |steps|
  {
    if steps == [] then a else Run(Next(a, steps[0]), steps[1..])
  }

  lemma AppliedLease(g: G.State, l: G.Lease, c: G.Clock)
    requires l.manual && forall id :: id in g.leases ==> g.leases[id].lease.manual
    ensures var t := G.ApplyTo(g, l, c);
            && t.0.bindings == g.bindings && t.0.sessions == g.sessions && t.0.next == g.next
            && t.0.capacityFailures == g.capacityFailures && t.0.coverageFailures == g.coverageFailures
            && (forall id :: id in g.leases ==> id in t.0.leases) && (forall id :: id in t.0.leases ==> t.0.leases[id].lease.manual)
            && (t.1.Granted? ==> l.identity in t.0.leases)
  {
    hide G.ValidLease, G.Deadline;
  }

  lemma FenceKept(a: Steady, id: Identity, leaseId: string, c: G.Clock, i: Identity)
    requires i in FenceTo(a, id, leaseId, c).0.holds
    ensures Kept(FenceTo(a, id, leaseId, c).0, i)
  {
    AppliedLease(a.g, G.Lease(leaseId, id, c.wall, 0, true), c);
    hide G.ApplyTo, ValidHex, Accounted;
    assert i != id ==> i in a.holds;
    assert i in a.holds ==> Kept(a, i);
  }

  /** What a fence leaves alone. */
  lemma FenceShape(a: Steady, id: Identity, leaseId: string, c: G.Clock)
    ensures var b := FenceTo(a, id, leaseId, c).0;
            && b == a.(holds := b.holds, g := b.g) && b.g.bindings == a.g.bindings && b.g.sessions == a.g.sessions && b.g.next == a.g.next
            && b.g.capacityFailures == a.g.capacityFailures && b.g.coverageFailures == a.g.coverageFailures
            && (forall i :: i in b.g.leases ==> b.g.leases[i].lease.manual)
  {
    AppliedLease(a.g, G.Lease(leaseId, id, c.wall, 0, true), c);
    hide G.ApplyTo, ValidHex, Kept, Bound, Accounted;
  }

  lemma FenceKeeps(a: Steady, id: Identity, leaseId: string, c: G.Clock)
    ensures Inv(FenceTo(a, id, leaseId, c).0)
  {
    var b := FenceTo(a, id, leaseId, c).0;
    FenceShape(a, id, leaseId, c);
    hide FenceTo, Kept;
    SameAccounts(a, b);
    hide Accounted;
    forall i | i in b.holds ensures Kept(b, i) { FenceKept(a, id, leaseId, c, i); }
  }

  /** Flows and sessions as before, and no mark taken back. */
  lemma SameAccounts(a: State, b: State)
    requires Accounted(a) && b.flows == a.flows && b.g.sessions == a.g.sessions && b.g.next == a.g.next
    requires a.incomplete <= b.incomplete && b.g.capacityFailures >= a.g.capacityFailures && b.g.coverageFailures >= a.g.coverageFailures
    ensures Accounted(b)
  {
  }

  lemma SameAdmission(a: State, b: State)
    requires Admission(a) && b.tag == a.tag && b.bindings == a.bindings && b.holds == a.holds && b.passed <= a.passed
    requires b.g.bindings == a.g.bindings && b.g.leases == a.g.leases
    ensures Admission(b)
  {
    forall i | i in b.holds ensures Kept(b, i) { assert Kept(a, i); }
  }

  lemma BindKeeps(a: Steady, login: string, id: Identity)
    requires (login in a.passed ==> login in a.bindings)
    ensures Inv(BindTo(a, login, id))
  {
    var b := BindTo(a, login, id);
    SameAccounts(a, b);
    hide Accounted;
    forall i | i in b.holds ensures Kept(b, i) { assert Kept(a, i); }
  }

  lemma CheckKeeps(a: Steady, login: string)
    ensures Inv(CheckTo(a, login))
  {
    var b := CheckTo(a, login);
    SameAccounts(a, b);
    hide Accounted;
    forall i | i in b.holds ensures Kept(b, i) { assert Kept(a, i); }
  }

  /** What the guard does with a login that passed. */
  lemma AdmitGuard(a: Steady, login: string, nanos: int)
    ensures var t := G.TrackTo(a.g, a.tag, login, nanos);
            && t.0.bindings == a.g.bindings && t.0.leases == a.g.leases
            && t.0.capacityFailures >= a.g.capacityFailures && t.0.coverageFailures >= a.g.coverageFailures
            && (t.1.Granted? ==> login in a.bindings && t.1.value == a.g.next + 1 == t.0.next
                                 && t.0.sessions == a.g.sessions[t.1.value := a.bindings[login]] && !G.Blocked(a.g, a.bindings[login], nanos))
            && (t.1.Refused? ==> t.0.sessions == a.g.sessions && t.0.next == a.g.next)
  {
    hide Kept, Accounted;
    if login in a.bindings && a.bindings[login] !in a.g.leases { assert a.g.leases - {a.bindings[login]} == a.g.leases; }
  }

  lemma AdmitAccounts(a: Steady, login: string, nanos: int, who: Identity)
    requires login in a.passed && Authentic(a, login, who)
    ensures Accounted(AdmitTo(a, login, nanos, who).0)
  {
    AdmitGuard(a, login, nanos);
    hide G.TrackTo, Admission;
  }

  lemma AdmitKeeps(a: Steady, login: string, nanos: int, who: Identity)
    requires login in a.passed && Authentic(a, login, who)
    ensures Inv(AdmitTo(a, login, nanos, who).0)
    ensures forall id :: id in a.holds ==> G.SessionsOf(AdmitTo(a, login, nanos, who).0.g, id) <= G.SessionsOf(a.g, id)
  {
    var b := AdmitTo(a, login, nanos, who).0;
    AdmitAccounts(a, login, nanos, who);
    AdmitGuard(a, login, nanos);
    hide G.TrackTo, Accounted, Serving;
    SameAdmission(a, b);
    forall i | i in a.holds ensures G.SessionsOf(b.g, i) <= G.SessionsOf(a.g, i) { assert Kept(a, i); }
  }

  lemma CloseKeeps(a: Steady, f: G.Flow)
    ensures Inv(CloseTo(a, f)) && forall id :: G.SessionsOf(CloseTo(a, f).g, id) <= G.SessionsOf(a.g, id)
  {
    SameAdmission(a, CloseTo(a, f));
    hide Admission;
  }

  lemma NoteKeeps(a: Steady, login: string)
    ensures Inv(NoteTo(a, login))
  {
    SameAdmission(a, NoteTo(a, login));
    SameAccounts(a, NoteTo(a, login));
  }

  lemma StrayKeeps(a: Steady, who: Identity)
    ensures Inv(StrayTo(a, who))
  {
    SameAdmission(a, StrayTo(a, who));
    hide Admission;
  }

  lemma SpawnKeeps(a: Steady, f: G.Flow)
    ensures Inv(SpawnTo(a, f))
  {
    SameAdmission(a, SpawnTo(a, f));
    hide Admission;
  }

  lemma QuiesceKeeps(a: Steady)
    ensures Inv(a.(quiescing := true))
  {
    SameAdmission(a, a.(quiescing := true));
    SameAccounts(a, a.(quiescing := true));
  }

  lemma RestoredKeeps(a: Steady, b: State)
    requires b == a.(restored := b.restored)
    ensures Inv(b)
  {
    SameAdmission(a, b);
    SameAccounts(a, b);
  }

  lemma StepKeeps(a: Steady, step: Step)
    ensures Inv(Next(a, step))
    ensures a.holds <= Next(a, step).holds
    ensures forall id :: id in a.holds ==> G.SessionsOf(Next(a, step).g, id) <= G.SessionsOf(a.g, id)
  {
    hide Inv;
    match step
    case Fence(id, leaseId, c) => FenceKeeps(a, id, leaseId, c); FenceSessions(a, id, leaseId, c);
    case Admit(login, nanos, who) => if login in a.passed && Authentic(a, login, who) { AdmitKeeps(a, login, nanos, who); }
    case Bind(login, id) => if login !in a.passed || login in a.bindings { BindKeeps(a, login, id); }
    case Check(login) => CheckKeeps(a, login);
    case Close(f) => CloseKeeps(a, f);
    case Quiesce => QuiesceKeeps(a);
    case Note(login) => NoteKeeps(a, login);
    case Stray(who) => StrayKeeps(a, who);
    case Spawn(f) => SpawnKeeps(a, f);
  }

  lemma FenceSessions(a: State, id: Identity, leaseId: string, c: G.Clock)
    ensures FenceTo(a, id, leaseId, c).0.g.sessions == a.g.sessions && a.holds <= FenceTo(a, id, leaseId, c).0.holds
  {
    hide G.ValidLease, G.Deadline, ValidHex;
  }

  /** Once held, an identity stays held and no session of it is ever admitted,
      even when one of its credentials is bound again later, however the two halves
      of concurrent `Track` calls interleave with it. */
  lemma {:induction false} HeldStaysOut(a: Steady, steps: seq<Step>, id: Identity)
    requires id in a.holds
    ensures id in Run(a, steps).holds && G.SessionsOf(Run(a, steps).g, id) <= G.SessionsOf(a.g, id)
    decreases |steps|
  {
    if steps != [] {
      StepKeeps(a, steps[0]);
      hide Next, Inv;
      HeldStaysOut(Next(a, steps[0]), steps[1..], id);
    }
  }

  lemma {:induction false} RunKeeps(a: Steady, steps: seq<Step>)
    ensures Inv(Run(a, steps))
    decreases |steps|
  {
    if steps != [] {
      StepKeeps(a, steps[0]);
      hide Next, Inv;
      RunKeeps(Next(a, steps[0]), steps[1..]);
    }
  }

  lemma StepQuiesced(a: State, step: Step)
    requires a.quiescing
    ensures var b := Next(a, step);
            b.quiescing && b.bindings == a.bindings && b.passed <= a.passed && forall n :: n in b.g.sessions && n !in a.g.sessions ==> a.passed != {}
  {
    if step.Fence? { FenceSessions(a, step.identity, step.leaseId, step.clock); }
    hide G.TrackTo, G.ApplyTo, ValidHex;
  }

  /** Once quiescing, an adapter binds no login and lets none pass; without a call between
      its two halves it never has another session. */
  lemma {:induction false} QuiescedCloses(a: State, steps: seq<Step>)
    requires a.quiescing
    ensures var b := Run(a, steps);
            b.quiescing && b.bindings == a.bindings && b.passed <= a.passed && (a.passed == {} ==> b.g.sessions.Keys <= a.g.sessions.Keys)
    decreases |steps|
  {
    if steps != [] {
      StepQuiesced(a, steps[0]);
      hide Next;
      QuiescedCloses(Next(a, steps[0]), steps[1..]);
    }
  }

  /** In every later state of the process the identity is held and has no further
      session. */
  ghost predicate KeptOut(a: State, id: Identity) {
    forall steps :: id in Run(a, steps).holds && G.SessionsOf(Run(a, steps).g, id) <= G.SessionsOf(a.g, id)
  }

  lemma HeldKeptOut(a: Steady, id: Identity)
    requires id in a.holds
    ensures KeptOut(a, id)
  {
    forall steps ensures id in Run(a, steps).holds && G.SessionsOf(Run(a, steps).g, id) <= G.SessionsOf(a.g, id) { HeldStaysOut(a, steps, id); }
  }

  /** No flow of the identity is running. */
  predicate Idle(a: State, id: Identity) { forall f :: f in a.flows ==> f.identity != id }

  /** In every later state of the process, as long as tracking of the identity is still
      reported as ready, no flow of it is running; and no flow of it is ever tracked. */
  ghost predicate Silent(a: State, id: Identity) {
    forall steps ::
      var b := Run(a, steps);
      (Ready(b, id) ==> Idle(b, id)) && (forall f :: f in b.flows && f.identity == id ==> f.session.None?)
  }

  /** An inspection knows the identity exactly when a login of it is bound or it was
      restored from the journal; it counts exactly its sessions. */
  lemma InspectKnows(a: Steady, epoch: string, id: Identity)
    ensures var s := InspectTo(a, epoch, id);
            && (s.bindings >= 1 <==> id in a.restored || exists l :: l in a.bindings && a.bindings[l] == id)
            && (s.outstanding == 0 <==> forall n :: n in a.g.sessions ==> a.g.sessions[n] != id)
            && (s.trackingReady ==> forall f :: f in a.flows && f.identity == id ==> f.session.Some?)
  {
    hide Admission;
    if l :| l in a.bindings && a.bindings[l] == id { assert l in LoginsOf(a, id); }
    if n :| n in a.g.sessions && a.g.sessions[n] == id { assert n in G.SessionsOf(a.g, id); }
  }

  /** None is running, and none will be without a lasting mark. */
  ghost predicate Hushed(a: State, id: Identity) { Idle(a, id) && Silent(a, id) }

  /** The adapter contract: an inspection that says "rejecting, tracked, none
      outstanding" means that no flow of the identity is running now, and that none
      will be later without spoiling that readiness for good. */
  lemma InspectMeansSilent(a: Steady, epoch: string, id: Identity)
    requires var s := InspectTo(a, epoch, id); s.rejectNew && s.trackingReady && s.outstanding == 0
    ensures Hushed(a, id)
  {
    forall steps
      ensures var b := Run(a, steps);
              (Ready(b, id) ==> Idle(b, id)) && (forall f :: f in b.flows && f.identity == id ==> f.session.None?)
    {
      HeldStaysOut(a, steps, id);
      RunKeeps(a, steps);
      NoneTracked(Run(a, steps), id);
    }
    NoneTracked(a, id);
  }

  lemma NoneTracked(a: Steady, id: Identity)
    requires G.SessionsOf(a.g, id) == {}
    ensures forall f :: f in a.flows && f.identity == id ==> f.session.None? && !Ready(a, id)
  {
    hide Admission;
    forall n | n in a.g.sessions ensures a.g.sessions[n] != id { assert n !in G.SessionsOf(a.g, id); }
  }

  lemma AdmitHeld(a: Steady, login: string, nanos: int, who: Identity)
    requires login in a.passed && Authentic(a, login, who) && who in a.holds
    ensures AdmitTo(a, login, nanos, who).0.flows == a.flows
  {
    if login in a.bindings { assert Kept(a, who); }
    hide Accounted;
  }

  /** The host serves a flow of the identity without asking the adapter. */
  predicate Escapes(step: Step, id: Identity) { step.Stray? && step.who == id }

  lemma StepSilent(a: Steady, step: Step, id: Identity)
    requires id in a.holds && Idle(a, id)
    ensures Idle(Next(a, step), id) <==> !Escapes(step, id)
  {
    if Escapes(step, id) { assert G.Flow(id, None, a.tag) in Next(a, step).flows; }
    if step.Admit? && step.who == id && step.login in a.passed && Authentic(a, step.login, id) { AdmitHeld(a, step.login, step.nanos, id); }
    hide G.TrackTo, G.ApplyTo, Inv;
  }

  lemma StepsSilent(a: Steady, steps: seq<Step>, n: nat, id: Identity)
    requires id in a.holds && Idle(a, id) && n <= |steps| && forall i :: 0 <= i < n ==> !Escapes(steps[i], id)
    ensures Idle(Run(a, steps[..n]), id)
    decreases n
  {
    if n > 0 {
      StepKeeps(a, steps[0]);
      StepSilent(a, steps[0], id);
      hide Next, Inv;
      assert steps[..n][1..] == steps[1..][..n - 1];
      StepsSilent(Next(a, steps[0]), steps[1..], n - 1, id);
    }
  }

  lemma EscapeShows(a: Steady, steps: seq<Step>, i: nat, id: Identity)
    requires i < |steps| && Escapes(steps[i], id)
    ensures !Idle(Run(a, steps[..i + 1]), id)
    decreases i
  {
    assert steps[..i + 1][1..] == steps[1..][..i];
    StepKeeps(a, steps[0]);
    if i == 0 {
      assert G.Flow(id, None, a.tag) in Next(a, steps[0]).flows;
    } else {
      hide Next, Inv;
      EscapeShows(Next(a, steps[0]), steps[1..], i - 1, id);
    }
  }

  /** A held identity without flows stays without them at every point of a run exactly
      when the host serves none of its flows without asking the adapter. */
  lemma SilentForGood(a: Steady, steps: seq<Step>, id: Identity)
    requires id in a.holds && Idle(a, id)
    ensures (forall n :: 0 <= n <= |steps| ==> Idle(Run(a, steps[..n]), id)) <==> (forall i :: 0 <= i < |steps| ==> !Escapes(steps[i], id))
  {
    hide Inv, Idle, Next;
    if i :| 0 <= i < |steps| && Escapes(steps[i], id) {
      EscapeShows(a, steps, i, id);
    } else {
      forall n | 0 <= n <= |steps| ensures Idle(Run(a, steps[..n]), id) { StepsSilent(a, steps, n, id); }
    }
  }

  const Blank := State("in", map[], {}, {}, {}, false, G.State(map[], map[], map[], map[], 0, 65536, 0, 0, {"in"}, {}), {}, {})

  lemma RunTwo(a: State, first: Step, second: Step)
    ensures Run(a, [first, second]) == Next(Next(a, first), second) && Run(a, [first]) == Next(a, first)
  {
    hide Next;
    assert [first, second][1..] == [second] && [second][1..] == [] == [first][1..];
    assert Run(a, [first, second]) == Run(Next(a, first), [second]) == Run(Next(Next(a, first), second), []);
  }

  lemma BoundBlank(login: string, id: Identity)
    requires 0 < |login| <= 1024 && id.uid > 0 && ValidHex(id.credential, 32)
    ensures Next(Blank, Bind(login, id)) == Blank.(bindings := map[login := id], g := Blank.g.(bindings := map[G.Binding("in", login) := id]))
  {
  }

  lemma FencedBlank(b: State, login: string, id: Identity, leaseId: string, c: G.Clock)
    requires b == Blank.(bindings := map[login := id], g := Blank.g.(bindings := map[G.Binding("in", login) := id]))
    requires id.uid > 0 && ValidHex(id.credential, 32) && ValidHex(leaseId, 16) && c.wall > 0
    ensures var a := FenceTo(b, id, leaseId, c).0;
            && a == b.(holds := {id}, g := a.g) && a.g.sessions == map[] && a.g.coverageFailures == 0 == a.g.capacityFailures
  {
    assert b.g.bindings[G.Binding("in", login)] == id;
    assert G.Hex(leaseId, 16) && G.Hex(id.credential, 32);
    hide ValidHex, G.Hex;
    assert b.bindings[login] == id;
  }

  lemma BlankIsSteady()
    ensures Inv(Blank)
  {
  }

  /** Such a flow can follow an inspection that found the identity closed: a fresh
      adapter binds a login, fences its identity, answers "closed", and the next flow of
      the identity is one the host cannot attribute. */
  lemma ClosedThenServed(login: string, id: Identity, leaseId: string, c: G.Clock, epoch: string)
    requires 0 < |login| <= 1024 && id.uid > 0 && ValidHex(id.credential, 32) && ValidHex(leaseId, 16) && c.wall > 0
    ensures var a := Run(Blank, [Bind(login, id), Fence(id, leaseId, c)]);
            && Inv(a) && InspectTo(a, epoch, id) == J.FenceStatus(epoch, id, true, 0, true, 1) && Idle(a, id)
            && !Idle(Run(a, [Stray(id)]), id) && !Ready(Run(a, [Stray(id)]), id)
  {
    hide Inv, FenceTo, BindTo, ValidHex, Run;
    var steps := [Bind(login, id), Fence(id, leaseId, c)];
    BlankIsSteady();
    RunKeeps(Blank, steps);
    RunTwo(Blank, steps[0], steps[1]);
    BoundBlank(login, id);
    var b := Next(Blank, Bind(login, id));
    FencedBlank(b, login, id, leaseId, c);
    var a := Run(Blank, steps);
    assert LoginsOf(a, id) == {login};
    RunTwo(a, Stray(id), Stray(id));
    assert G.Flow(id, None, a.tag) in Run(a, [Stray(id)]).flows;
  }
}
