/** Concurrent group calls over several guards (common/beupguard/registry.go): each
    call asks the covering guards one after the other, and between any two of its
    actions other calls and the guards' own commands may run. */
module Groups {
  import opened Counters
  import opened Guards
  import opened Registries

  /** Asking guard after guard; undoing after a refusal; answered and serving;
      completing; over. */
  datatype Phase = Asking | Undoing | Serving | Completing | Over

  /** `tickets` are the registrations the call still has, `ever` all it was given. */
  datatype Call = Call(tag: string, login: string, at: nat, tickets: set<Ticket>, ever: set<Ticket>, refused: bool, phase: Phase)

  datatype Group = Group(guards: seq<State>, scopes: seq<Scope>, nanos: int, calls: map<nat, Call>)

  datatype Step =
    | Tick(nanos: int)
    | Enter(call: nat, tag: string, login: string)
    | Ask(call: nat)
    | Drop(call: nat, ticket: Ticket) // one completion of a guard
    | End(call: nat)
    | Finish(call: nat)
    | Other(guard: nat, step: Guards.Step)

  predicate Command(step: Guards.Step) { step.Bind? || step.Unbind? || step.Note? || step.Apply? || step.Release? }

  function AskTo(g: Group, c: nat): Group
    requires c in g.calls && |g.scopes| == |g.guards| && g.calls[c].at < |g.guards|
  {
    var call := g.calls[c];
    var i := call.at;
    if !InScope(g.scopes[i], call.tag) then g.(calls := g.calls[c := call.(at := i + 1)])
    else
      var t := TrackTo(g.guards[i], call.tag, call.login, g.nanos);
      match t.1
      case Granted(n) => g.(guards := g.guards[i := t.0], calls := g.calls[c := call.(at := i + 1, tickets := call.tickets + {Ticket(i, n)}, ever := call.ever + {Ticket(i, n)})])
      case Refused(why) =>
        if why == Isolated then g.(calls := g.calls[c := call.(refused := true, phase := Undoing)])
        else g.(guards := g.guards[i := t.0], calls := g.calls[c := call.(at := i + 1)])
  }

  function DropTo(g: Group, c: nat, t: Ticket): Group
    requires c in g.calls && t.at < |g.guards|
  {
    g.(guards := g.guards[t.at := FinishTo(g.guards[t.at], t.n)], calls := g.calls[c := g.calls[c].(tickets := g.calls[c].tickets - {t})])
  }

  function Next(g: Group, step: Step): Group
    requires |g.scopes| == |g.guards|
    ensures |Next(g, step).guards| == |g.guards| && Next(g, step).scopes == g.scopes
  {
    match step
    case Tick(nanos) => if nanos >= g.nanos then g.(nanos := nanos) else g
    case Enter(c, tag, login) => if c in g.calls then g else g.(calls := g.calls[c := Call(tag, login, 0, {}, {}, false, Asking)])
    case Ask(c) =>
      if c !in g.calls || g.calls[c].phase != Asking then g
      else if g.calls[c].at >= |g.guards| then g.(calls := g.calls[c := g.calls[c].(phase := Serving)])
      else AskTo(g, c)
    case Drop(c, t) =>
      if c in g.calls && (g.calls[c].phase == Undoing || g.calls[c].phase == Completing) && t in g.calls[c].tickets && t.at < |g.guards| then DropTo(g, c, t) else g
    case End(c) =>
      if c in g.calls && (g.calls[c].phase == Undoing || g.calls[c].phase == Completing) && g.calls[c].tickets == {} then
        g.(calls := g.calls[c := g.calls[c].(phase := Over)])
      else g
    // only the first completion does anything
    case Finish(c) => if c in g.calls && g.calls[c].phase == Serving then g.(calls := g.calls[c := g.calls[c].(phase := Completing)]) else g
    case Other(i, s) =>
      if i < |g.guards| && Command(s) then g.(guards := g.guards[i := Guards.Next(World(g.guards[i], {}, g.nanos, g.scopes[i]), s).g]) else g
  }

  function Run(g: Group, steps: seq<Step>): Group
    requires |g.scopes| == |g.guards|
    decreases |steps|
  {
    if steps == [] then g else Run(Next(g, steps[0]), steps[1..])
  }

  /** The call's tickets are registered, what it gave back never is again, and a
      finished call has none. */
  ghost predicate CallOk(g: Group, call: Call) {
    && call.tickets <= call.ever && (call.phase == Over ==> call.tickets == {})
    && (call.refused ==> call.phase == Undoing || call.phase == Over)
    && forall t :: t in call.ever ==>
         t.at < |g.guards| && t.n <= g.guards[t.at].next && (t in call.tickets <==> t.n in g.guards[t.at].sessions)
  }

  ghost predicate Apart(g: Group) {
    forall c, d :: c in g.calls && d in g.calls && c != d ==> g.calls[c].ever !! g.calls[d].ever
  }

  ghost predicate Owned(g: Group, i: nat, n: nat) { exists c :: c in g.calls && Ticket(i, n) in g.calls[c].tickets }

  /** The sessions of the guards are exactly the tickets of the calls. */
  ghost predicate Inv(g: Group) {
    && |g.scopes| == |g.guards| && Apart(g)
    && (forall c :: c in g.calls ==> CallOk(g, g.calls[c]))
    && (forall i :: 0 <= i < |g.guards| ==> Numbered(g.guards[i]))
    && (forall i, n :: 0 <= i < |g.guards| && n in g.guards[i].sessions ==> Owned(g, i, n))
  }

  // ---- every step keeps it -------------------------------------------------------------

  /** Guards whose sessions and counters are as before. */
  ghost predicate SameSessions(g: Group, h: Group) {
    |h.guards| == |g.guards| && h.scopes == g.scopes
    && forall i :: 0 <= i < |g.guards| ==> h.guards[i].sessions == g.guards[i].sessions && h.guards[i].next == g.guards[i].next
  }

  /** One call changes its phase or position but none of its tickets. */
  lemma PhaseKeeps(g: Group, h: Group, c: nat)
    requires Inv(g) && SameSessions(g, h) && c in g.calls && c in h.calls && h.calls == g.calls[c := h.calls[c]]
    requires h.calls[c].tickets == g.calls[c].tickets && h.calls[c].ever == g.calls[c].ever
    requires (h.calls[c].phase == Over ==> g.calls[c].tickets == {}) && (h.calls[c].refused ==> h.calls[c].phase == Undoing || h.calls[c].phase == Over)
    ensures Inv(h)
  {
    forall d | d in h.calls ensures CallOk(h, h.calls[d]) { assert CallOk(g, g.calls[d]); }
    forall i, n | 0 <= i < |h.guards| && n in h.guards[i].sessions ensures Owned(h, i, n) {
      assert Owned(g, i, n);
      var d :| d in g.calls && Ticket(i, n) in g.calls[d].tickets;
      assert Ticket(i, n) in h.calls[d].tickets;
    }
  }

  lemma GuardsKeep(g: Group, h: Group)
    requires Inv(g) && SameSessions(g, h) && h.calls == g.calls
    ensures Inv(h)
  {
    forall d | d in h.calls ensures CallOk(h, h.calls[d]) { assert CallOk(g, g.calls[d]); }
    forall i, n | 0 <= i < |h.guards| && n in h.guards[i].sessions ensures Owned(h, i, n) {
      assert Owned(g, i, n);
      var d :| d in g.calls && Ticket(i, n) in g.calls[d].tickets;
      assert Ticket(i, n) in h.calls[d].tickets;
    }
  }

  lemma EnterKeeps(g: Group, c: nat, tag: string, login: string)
    requires Inv(g) && c !in g.calls
    ensures Inv(g.(calls := g.calls[c := Call(tag, login, 0, {}, {}, false, Asking)]))
  {
    var h := g.(calls := g.calls[c := Call(tag, login, 0, {}, {}, false, Asking)]);
    forall d | d in h.calls ensures CallOk(h, h.calls[d]) { if d != c { assert CallOk(g, g.calls[d]); } }
    forall i, n | 0 <= i < |h.guards| && n in h.guards[i].sessions ensures Owned(h, i, n) {
      assert Owned(g, i, n);
      var d :| d in g.calls && Ticket(i, n) in g.calls[d].tickets;
      assert Ticket(i, n) in h.calls[d].tickets;
    }
  }

  /** The group after guard `t.at` has registered a number for the call. */
  function Granting(g: Group, c: nat, t: Ticket, v: State): Group
    requires c in g.calls && t.at < |g.guards|
  {
    g.(guards := g.guards[t.at := v], calls := g.calls[c := g.calls[c].(at := t.at + 1, tickets := g.calls[c].tickets + {t}, ever := g.calls[c].ever + {t})])
  }

  /** It is a new number. */
  ghost predicate Grants(g: Group, c: nat, t: Ticket, v: State) {
    && c in g.calls && g.calls[c].phase == Asking && t.at == g.calls[c].at < |g.guards| && t.n == g.guards[t.at].next + 1
    && v.next == t.n && v.sessions.Keys == g.guards[t.at].sessions.Keys + {t.n}
  }

  lemma GrantCall(g: Group, c: nat, d: nat, t: Ticket, v: State)
    requires Grants(g, c, t, v) && d in g.calls && CallOk(g, g.calls[d])
    ensures CallOk(Granting(g, c, t, v), Granting(g, c, t, v).calls[d]) && t !in g.calls[d].ever
  {
  }

  lemma GrantOwned(g: Group, c: nat, t: Ticket, v: State, i: nat, n: nat)
    requires Grants(g, c, t, v) && i < |g.guards| && n in Granting(g, c, t, v).guards[i].sessions
    requires n in g.guards[i].sessions ==> Owned(g, i, n)
    ensures Owned(Granting(g, c, t, v), i, n)
  {
    var h := Granting(g, c, t, v);
    if n in g.guards[i].sessions {
      var d :| d in g.calls && Ticket(i, n) in g.calls[d].tickets;
      assert Ticket(i, n) in h.calls[d].tickets;
    } else {
      assert t in h.calls[c].tickets;
    }
  }

  lemma GrantApart(g: Group, c: nat, t: Ticket, v: State)
    requires Grants(g, c, t, v) && Apart(g) && forall d :: d in g.calls ==> t !in g.calls[d].ever
    ensures Apart(Granting(g, c, t, v))
  {
  }

  /** A guard that grants registers one new number. */
  lemma GrantKeeps(g: Group, c: nat, t: Ticket, v: State)
    requires Inv(g) && Grants(g, c, t, v)
    ensures Inv(Granting(g, c, t, v))
  {
    var h := Granting(g, c, t, v);
    assert Numbered(v) by { assert Numbered(g.guards[t.at]); }
    hide CallOk, Owned, Numbered;
    forall d | d in g.calls ensures CallOk(h, h.calls[d]) && t !in g.calls[d].ever { GrantCall(g, c, d, t, v); }
    GrantApart(g, c, t, v);
    hide Apart;
    forall i: nat, n | i < |h.guards| && n in h.guards[i].sessions ensures Owned(h, i, n) { GrantOwned(g, c, t, v, i, n); }
  }

  lemma DropCall(g: Group, c: nat, t: Ticket, d: nat)
    requires Apart(g) && c in g.calls && d in g.calls && CallOk(g, g.calls[d]) && CallOk(g, g.calls[c]) && t in g.calls[c].tickets && g.calls[c].phase != Over
    ensures t.at < |g.guards| && CallOk(DropTo(g, c, t), DropTo(g, c, t).calls[d])
  {
    assert d != c ==> t !in g.calls[d].ever;
  }

  lemma DropOwned(g: Group, c: nat, t: Ticket, i: nat, n: nat)
    requires c in g.calls && t.at < |g.guards| && i < |g.guards| && n in DropTo(g, c, t).guards[i].sessions && Owned(g, i, n)
    ensures Owned(DropTo(g, c, t), i, n)
  {
    var d :| d in g.calls && Ticket(i, n) in g.calls[d].tickets;
    assert Ticket(i, n) in DropTo(g, c, t).calls[d].tickets;
  }

  /** A completion removes the one session its ticket names. */
  lemma DropKeeps(g: Group, c: nat, t: Ticket)
    requires Inv(g) && c in g.calls && t in g.calls[c].tickets && t.at < |g.guards| && g.calls[c].phase != Over
    ensures Inv(DropTo(g, c, t))
  {
    var h := DropTo(g, c, t);
    assert Apart(h);
    assert Numbered(h.guards[t.at]) by { assert Numbered(g.guards[t.at]); }
    hide CallOk, Owned, Numbered, Apart;
    forall d | d in h.calls ensures CallOk(h, h.calls[d]) { DropCall(g, c, t, d); }
    forall i: nat, n | i < |h.guards| && n in h.guards[i].sessions ensures Owned(h, i, n) {
      assert n in g.guards[i].sessions;
      DropOwned(g, c, t, i, n);
    }
  }

  predicate Registers(g: Group, c: nat)
    requires c in g.calls && |g.scopes| == |g.guards| && g.calls[c].at < |g.guards|
  {
    var call := g.calls[c];
    InScope(g.scopes[call.at], call.tag) && TrackTo(g.guards[call.at], call.tag, call.login, g.nanos).1.Granted?
  }

  lemma AskGrants(g: Group, c: nat)
    requires c in g.calls && |g.scopes| == |g.guards| && g.calls[c].phase == Asking && g.calls[c].at < |g.guards| && Registers(g, c)
    ensures var i := g.calls[c].at;
            var t := TrackTo(g.guards[i], g.calls[c].tag, g.calls[c].login, g.nanos);
            Grants(g, c, Ticket(i, t.1.value), t.0) && AskTo(g, c) == Granting(g, c, Ticket(i, t.1.value), t.0)
  {
    var call := g.calls[c];
    TrackShape(g.guards[call.at], call.tag, call.login, g.nanos);
    TrackKeys(g.guards[call.at], call.tag, call.login, g.nanos);
    hide TrackTo;
  }

  lemma AskSame(g: Group, c: nat)
    requires c in g.calls && |g.scopes| == |g.guards| && g.calls[c].phase == Asking && !g.calls[c].refused && g.calls[c].at < |g.guards| && !Registers(g, c)
    ensures var h := AskTo(g, c);
            && SameSessions(g, h) && c in h.calls && h.calls == g.calls[c := h.calls[c]]
            && h.calls[c].tickets == g.calls[c].tickets && h.calls[c].ever == g.calls[c].ever && h.calls[c].phase != Over
            && (h.calls[c].refused ==> h.calls[c].phase == Undoing)
  {
    var call := g.calls[c];
    TrackShape(g.guards[call.at], call.tag, call.login, g.nanos);
    hide TrackTo;
  }

  lemma AskKeeps(g: Group, c: nat)
    requires Inv(g) && c in g.calls && g.calls[c].phase == Asking && g.calls[c].at < |g.guards|
    ensures Inv(AskTo(g, c))
  {
    assert !g.calls[c].refused by { assert CallOk(g, g.calls[c]); }
    if Registers(g, c) {
      var i := g.calls[c].at;
      var t := TrackTo(g.guards[i], g.calls[c].tag, g.calls[c].login, g.nanos);
      AskGrants(g, c);
      hide TrackTo, Inv, AskTo, Granting, Grants;
      GrantKeeps(g, c, Ticket(i, t.1.value), t.0);
    } else {
      AskSame(g, c);
      hide TrackTo, Inv, AskTo, SameSessions;
      PhaseKeeps(g, AskTo(g, c), c);
    }
  }

  lemma TrackKeys(g: State, tag: string, login: string, nanos: int)
    requires TrackTo(g, tag, login, nanos).1.Granted?
    ensures TrackTo(g, tag, login, nanos).0.sessions.Keys == g.sessions.Keys + {g.next + 1}
  {
    hide Blocked;
  }

  lemma OtherKeeps(g: Group, i: nat, s: Guards.Step)
    requires Inv(g) && i < |g.guards| && Command(s)
    ensures Inv(g.(guards := g.guards[i := Guards.Next(World(g.guards[i], {}, g.nanos, g.scopes[i]), s).g]))
  {
    CommandSessions(World(g.guards[i], {}, g.nanos, g.scopes[i]), s);
    hide Guards.Next;
    GuardsKeep(g, g.(guards := g.guards[i := Guards.Next(World(g.guards[i], {}, g.nanos, g.scopes[i]), s).g]));
  }

  lemma CommandSessions(w: World, s: Guards.Step)
    requires Command(s)
    ensures Guards.Next(w, s).g.sessions == w.g.sessions && Guards.Next(w, s).g.next == w.g.next
  {
    hide ValidLease, Deadline, SessionsOf;
  }

  lemma StepKeeps(g: Group, step: Step)
    requires Inv(g)
    ensures Inv(Next(g, step))
  {
    match step
    case Tick(nanos) => GuardsKeep(g, Next(g, step));
    case Enter(c, tag, login) => if c !in g.calls { EnterKeeps(g, c, tag, login); }
    case Ask(c) =>
      if c in g.calls && g.calls[c].phase == Asking {
        assert CallOk(g, g.calls[c]);
        if g.calls[c].at >= |g.guards| { PhaseKeeps(g, Next(g, step), c); } else { AskKeeps(g, c); }
      }
    case Drop(c, t) =>
      if c in g.calls && (g.calls[c].phase == Undoing || g.calls[c].phase == Completing) && t in g.calls[c].tickets && t.at < |g.guards| { DropKeeps(g, c, t); }
    case End(c) => if c in g.calls { PhaseSteps(g, step, c); }
    case Finish(c) => if c in g.calls { PhaseSteps(g, step, c); }
    case Other(i, s) => if i < |g.guards| && Command(s) { OtherKeeps(g, i, s); }
  }

  lemma PhaseSteps(g: Group, step: Step, c: nat)
    requires Inv(g) && c in g.calls && (step == End(c) || step == Finish(c))
    ensures Inv(Next(g, step))
  {
    assert CallOk(g, g.calls[c]);
    if Next(g, step) != g { PhaseKeeps(g, Next(g, step), c); }
  }

  lemma {:induction false} RunKeeps(g: Group, steps: seq<Step>)
    requires Inv(g)
    ensures Inv(Run(g, steps))
    decreases |steps|
  {
    if steps != [] {
      StepKeeps(g, steps[0]);
      hide Next, Inv;
      RunKeeps(Next(g, steps[0]), steps[1..]);
    }
  }

  // ---- the theorems ----------------------------------------------------------------------

  /** Guards that have registered nothing yet, and no call. */
  ghost predicate Fresh(g: Group) {
    |g.scopes| == |g.guards| && g.calls == map[] && forall i :: 0 <= i < |g.guards| ==> g.guards[i].sessions == map[]
  }

  /** Over every interleaving of any number of group calls: the sessions of every guard
      are exactly the tickets of the calls that are not over; a call that is over, by
      refusal or completion, has left none behind in any guard. */
  lemma SessionsAreTickets(g: Group, steps: seq<Step>, i: nat, n: nat)
    requires Fresh(g) && i < |g.guards|
    ensures var h := Run(g, steps);
            && |h.guards| == |g.guards| && (n in h.guards[i].sessions <==> exists c :: c in h.calls && h.calls[c].phase != Over && Ticket(i, n) in h.calls[c].tickets)
            && forall c :: c in h.calls && h.calls[c].phase == Over && Ticket(i, n) in h.calls[c].ever ==> n !in h.guards[i].sessions
  {
    assert Inv(g);
    RunKeeps(g, steps);
    RunSize(g, steps);
    var h := Run(g, steps);
    hide Run;
    forall c | c in h.calls ensures CallOk(h, h.calls[c]) { }
    if n in h.guards[i].sessions {
      assert Owned(h, i, n);
      var c :| c in h.calls && Ticket(i, n) in h.calls[c].tickets;
      assert CallOk(h, h.calls[c]);
    }
  }

  lemma {:induction false} RunSize(g: Group, steps: seq<Step>)
    requires |g.scopes| == |g.guards|
    ensures |Run(g, steps).guards| == |g.guards| && Run(g, steps).scopes == g.scopes
    decreases |steps|
  {
    if steps != [] {
      hide Next;
      RunSize(Next(g, steps[0]), steps[1..]);
    }
  }

  /** The call asks the guard at its place, which covers its inbound. */
  predicate Asks(g: Group, step: Step, c: nat) {
    && step == Ask(c) && c in g.calls && g.calls[c].phase == Asking && g.calls[c].at < |g.guards| == |g.scopes|
    && InScope(g.scopes[g.calls[c].at], g.calls[c].tag)
  }

  /** ... which holds it. */
  predicate Stopped(g: Group, step: Step, c: nat) {
    Asks(g, step, c) && Holding(g.guards[g.calls[c].at], g.calls[c].tag, g.calls[c].login, g.nanos)
  }

  lemma CallStep(g: Group, step: Step, c: nat)
    requires |g.scopes| == |g.guards| && c in g.calls
    ensures var h := Next(g, step);
            && c in h.calls && h.calls[c].tag == g.calls[c].tag && h.calls[c].login == g.calls[c].login && h.calls[c].at >= g.calls[c].at
            && (h.calls[c].refused <==> g.calls[c].refused || Stopped(g, step, c))
            && (h.calls[c].at > g.calls[c].at ==>
                  && step == Ask(c) && g.calls[c].phase == Asking && g.calls[c].at < |g.guards| && h.calls[c].at == g.calls[c].at + 1
                  && !Stopped(g, step, c))
  {
    if step.Ask? && step.call == c && g.calls[c].phase == Asking && g.calls[c].at < |g.guards| {
      HoldingIsolates(g.guards[g.calls[c].at], g.calls[c].tag, g.calls[c].login, g.nanos);
    }
    hide TrackTo, Guards.Next, Holding;
  }

  /** The guard knows the login, and a lease of its identity is in force. */
  predicate Holding(g: State, tag: string, login: string, nanos: int) {
    Binding(tag, login) in g.bindings && Blocked(g, g.bindings[Binding(tag, login)], nanos)
  }

  lemma HoldingIsolates(g: State, tag: string, login: string, nanos: int)
    ensures Isolates(g, tag, login, nanos) <==> Holding(g, tag, login, nanos)
  {
  }

  lemma {:induction false} CallKept(g: Group, steps: seq<Step>, c: nat)
    requires |g.scopes| == |g.guards| && c in g.calls
    ensures var h := Run(g, steps);
            && c in h.calls && h.calls[c].tag == g.calls[c].tag && h.calls[c].login == g.calls[c].login && h.calls[c].at >= g.calls[c].at
            && (g.calls[c].refused ==> h.calls[c].refused)
    decreases |steps|
  {
    if steps != [] {
      CallStep(g, steps[0], c);
      hide Next;
      CallKept(Next(g, steps[0]), steps[1..], c);
    }
  }

  /** A call that is past a guard which covers its inbound has asked it once, and that
      guard did not hold it then. */
  lemma {:induction false} PastGuard(g: Group, steps: seq<Step>, c: nat, i: nat) returns (n: nat)
    requires |g.scopes| == |g.guards| && i < |g.guards| && (c in g.calls ==> g.calls[c].at <= i)
    requires var h := Run(g, steps); c in h.calls && h.calls[c].at > i && InScope(g.scopes[i], h.calls[c].tag)
    ensures n < |steps| && Clears(Run(g, steps[..n]), steps[n], c, i, Run(g, steps).calls[c])
    decreases |steps|
  {
    var step, g' := steps[0], Next(g, steps[0]);
    if c in g.calls { CallStep(g, step, c); }
    if c in g'.calls && g'.calls[c].at > i {
      n := 0;
      assert c in g.calls && g.calls[c].at == i;
      hide Next, Holding;
      CallKept(g', steps[1..], c);
      assert steps[..0] == [];
    } else {
      hide Next, Holding;
      var m := PastGuard(g', steps[1..], c, i);
      n := m + 1;
      assert steps[..n][1..] == steps[1..][..m];
    }
  }

  /** The guard is asked for this call and does not hold it. */
  predicate Clears(g: Group, step: Step, c: nat, i: nat, call: Call) {
    && Asks(g, step, c) && g.calls[c].at == i && g.calls[c].tag == call.tag && g.calls[c].login == call.login
    && !Holding(g.guards[i], call.tag, call.login, g.nanos)
  }

  predicate Serves(g: Group, c: nat) { c in g.calls && (g.calls[c].phase == Serving || g.calls[c].phase == Completing) }

  lemma {:induction false} AskedAll(g: Group, steps: seq<Step>, c: nat)
    requires |g.scopes| == |g.guards| && (Serves(g, c) ==> g.calls[c].at >= |g.guards|)
    ensures Serves(Run(g, steps), c) ==> Run(g, steps).calls[c].at >= |g.guards|
    decreases |steps|
  {
    if steps != [] {
      assert Serves(Next(g, steps[0]), c) ==> Next(g, steps[0]).calls[c].at >= |g.guards| by { hide TrackTo, Guards.Next; }
      hide Next;
      AskedAll(Next(g, steps[0]), steps[1..], c);
    }
  }

  /** A call that serves was held by no guard that covers its inbound at the moment
      when it asked that guard, over every interleaving. */
  lemma ServedClear(g: Group, steps: seq<Step>, c: nat, i: nat)
    requires |g.scopes| == |g.guards| && c !in g.calls && i < |g.guards|
    requires var h := Run(g, steps); Serves(h, c) && InScope(g.scopes[i], h.calls[c].tag)
    ensures exists n: nat :: n < |steps| && Clears(Run(g, steps[..n]), steps[n], c, i, Run(g, steps).calls[c])
  {
    hide Next, Clears;
    AskedAll(g, steps, c);
    var n := PastGuard(g, steps, c, i);
  }

  /** A hold wins: while it stands in one guard that covers the inbound, from the
      beginning of the call on, the call does not serve, whatever the other guards say. */
  lemma StandingHold(g: Group, steps: seq<Step>, c: nat, i: nat, tag: string, login: string)
    requires |g.scopes| == |g.guards| && c !in g.calls && i < |g.guards| && InScope(g.scopes[i], tag)
    requires forall n :: 0 <= n <= |steps| ==> var h := Run(g, steps[..n]); c in h.calls ==> |h.guards| == |g.guards| && Holding(h.guards[i], tag, login, h.nanos)
    requires var h := Run(g, steps); c in h.calls && h.calls[c].tag == tag && h.calls[c].login == login
    ensures !Serves(Run(g, steps), c)
  {
    hide Next, Holding;
    if Serves(Run(g, steps), c) {
      ServedClear(g, steps, c, i);
    }
  }

  lemma {:induction false} RefusedSince(g: Group, steps: seq<Step>, c: nat)
    requires |g.scopes| == |g.guards| && (c in g.calls ==> !g.calls[c].refused) && c in Run(g, steps).calls && Run(g, steps).calls[c].refused
    ensures exists n: nat :: n < |steps| && Stopped(Run(g, steps[..n]), steps[n], c)
    decreases |steps|
  {
    var g' := Next(g, steps[0]);
    if c in g.calls { CallStep(g, steps[0], c); }
    if c in g'.calls && g'.calls[c].refused {
      hide Next;
      assert steps[..0] == [];
      assert Stopped(Run(g, steps[..0]), steps[0], c);
    } else {
      hide Next, Stopped;
      RefusedSince(g', steps[1..], c);
      var m: nat :| m < |steps[1..]| && Stopped(Run(g', steps[1..][..m]), steps[1..][m], c);
      assert steps[..m + 1][1..] == steps[1..][..m];
      assert Stopped(Run(g, steps[..m + 1]), steps[m + 1], c);
    }
  }

  lemma {:induction false} StoppedRefused(g: Group, steps: seq<Step>, c: nat, n: nat)
    requires |g.scopes| == |g.guards| && n < |steps| && Stopped(Run(g, steps[..n]), steps[n], c)
    ensures c in Run(g, steps).calls && Run(g, steps).calls[c].refused
    decreases n
  {
    if n == 0 {
      assert steps[..0] == [];
      CallStep(g, steps[0], c);
      hide Next;
      CallKept(Next(g, steps[0]), steps[1..], c);
    } else {
      hide Next, Stopped;
      assert steps[..n][1..] == steps[1..][..n - 1];
      StoppedRefused(Next(g, steps[0]), steps[1..], c, n - 1);
    }
  }

  /** A call is refused exactly when some covering guard held it as it was asked. */
  lemma RefusedExactly(g: Group, steps: seq<Step>, c: nat)
    requires |g.scopes| == |g.guards| && c !in g.calls && c in Run(g, steps).calls
    ensures Run(g, steps).calls[c].refused <==> exists n: nat :: n < |steps| && Stopped(Run(g, steps[..n]), steps[n], c)
  {
    hide Next, Stopped;
    if Run(g, steps).calls[c].refused { RefusedSince(g, steps, c); }
    if n: nat :| n < |steps| && Stopped(Run(g, steps[..n]), steps[n], c) { StoppedRefused(g, steps, c, n); }
  }

  /** A refused call stays refused: it never serves, whatever the other guards say and
      whenever the hold is released. */
  lemma {:induction false} RefusedForGood(g: Group, steps: seq<Step>, c: nat)
    requires Inv(g) && c in g.calls && g.calls[c].refused
    ensures var h := Run(g, steps);
            c in h.calls && h.calls[c].refused && (h.calls[c].phase == Undoing || h.calls[c].phase == Over)
    decreases |steps|
  {
    if steps == [] {
      assert CallOk(g, g.calls[c]);
    } else {
      StepKeeps(g, steps[0]);
      RefusedStep(g, steps[0], c);
      hide Next, Inv;
      RefusedForGood(Next(g, steps[0]), steps[1..], c);
    }
  }

  lemma RefusedStep(g: Group, step: Step, c: nat)
    requires Inv(g) && c in g.calls && g.calls[c].refused
    ensures c in Next(g, step).calls && Next(g, step).calls[c].refused
  {
    assert CallOk(g, g.calls[c]);
    hide TrackTo, Guards.Next;
  }
}
