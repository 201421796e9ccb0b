/** One sampling minute of the observer: per-account counters, their running maxima
    and the shared capacity limits (common/beupobserve/observer.go and
    tcp_outcomes.go). */
module Windows {
  import opened Counters
  import opened Sums

  const ACCOUNTS: nat := 4096
  const EDGES: nat := 65536
  const PER_ACCOUNT: nat := 2048

  /** A destination fingerprint; its domain includes the sampling minute. */
  datatype Target = Target(minute: int, value: string)

  datatype Dial = Dial(
    credential: string, isComplete: bool, attempts: nat, succeeded: nat, refused: nat, timedOut: nat, cancelled: nat, otherErrors: nat,
    maxAttempts: nat, maxPorts: nat)

  datatype DialTarget = DialTarget(attempts: nat, ports: set<nat>)

  datatype Account = Account(
    requests: nat, tcp: nat, udp: nat, maxRequests: nat, targets: map<Target, nat>, ports: set<nat>, dial: Option<Dial>,
    dialTargets: map<Target, DialTarget>)

  datatype Window = Window(accounts: map<string, Account>, partial: bool, edges: nat, accepted: nat, lost: nat, unmapped: nat)

  function NoDial(): Dial { Dial("", false, 0, 0, 0, 0, 0, 0, 0, 0) }

  function Empty(): Account { Account(0, 0, 0, 0, map[], {}, None, map[]) }

  function NoWindow(): Window { Window(map[], false, 0, 0, 0, 0) }

  /** A sample on its way to a window. `outcome` 0 is a request, 1 to 5 a finished
      dial (2 is refused). Two fields belong to the specification: `observed`, the
      subject its label was bound to when the generation was read, and `prepared`,
      the minute of its producer's first clock reading. */
  datatype Event = Event(
    key: string, target: Target, minute: int, generation: nat, port: nat, tcp: bool, outcome: nat, observed: Option<string>, prepared: int)

  datatype Fate = Counted | Lost | Full

  // ---- one account -----------------------------------------------------------------

  function Hits(a: Account, t: Target): nat { if t in a.targets then a.targets[t] else 0 }

  function RequestDelta(a: Account, t: Target, port: nat): nat {
    (if t in a.targets then 0 else 1) + (if port in a.ports then 0 else 1)
  }

  predicate RequestFull(a: Account, t: Target, port: nat) {
    (t !in a.targets && |a.targets| >= PER_ACCOUNT) || (port !in a.ports && |a.ports| >= PER_ACCOUNT)
  }

  function AddRequest(a: Account, t: Target, port: nat, tcp: bool): Account {
    var n := Hits(a, t) + 1;
    a.(targets := a.targets[t := n], ports := a.ports + {port}, requests := a.requests + 1,
       tcp := if tcp then a.tcp + 1 else a.tcp, udp := if tcp then a.udp else a.udp + 1,
       maxRequests := if n > a.maxRequests then n else a.maxRequests)
  }

  function DialDelta(a: Account, t: Target, port: nat): nat {
    if t !in a.dialTargets then 2 else if port in a.dialTargets[t].ports then 0 else 1
  }

  predicate DialFull(a: Account, t: Target, port: nat) {
    || (t !in a.dialTargets && |a.dialTargets| >= PER_ACCOUNT)
    || (t in a.dialTargets && |a.dialTargets[t].ports| >= PER_ACCOUNT && DialDelta(a, t, port) > 0)
  }

  function Touched(a: Account, t: Target, port: nat): DialTarget {
    if t in a.dialTargets then DialTarget(a.dialTargets[t].attempts + 1, a.dialTargets[t].ports + {port}) else DialTarget(1, {port})
  }

  /** The refused pair is compared as (ports, attempts) of one target. */
  predicate Exceeds(ports: nat, attempts: nat, d: Dial) { ports > d.maxPorts || (ports == d.maxPorts && attempts > d.maxAttempts) }

  function Raise(d: Dial, t: DialTarget): Dial {
    if Exceeds(|t.ports|, t.attempts, d) then d.(maxPorts := |t.ports|, maxAttempts := t.attempts) else d
  }

  function Tally(d: Dial, outcome: nat): Dial {
    var d := d.(attempts := d.attempts + 1);
    if outcome == 1 then d.(succeeded := d.succeeded + 1)
    else if outcome == 2 then d.(refused := d.refused + 1)
    else if outcome == 3 then d.(timedOut := d.timedOut + 1)
    else if outcome == 4 then d.(cancelled := d.cancelled + 1)
    else d.(otherErrors := d.otherErrors + 1)
  }

  function DialOf(a: Account): Dial { if a.dial.Some? then a.dial.value else NoDial() }

  function AddDial(a: Account, t: Target, port: nat, outcome: nat): Account {
    if outcome == 2 then
      var d := Touched(a, t, port);
      a.(dialTargets := a.dialTargets[t := d], dial := Some(Tally(Raise(DialOf(a), d), outcome)))
    else a.(dial := Some(Tally(DialOf(a), outcome)))
  }

  /** Evidence of one minute names one credential or none. */
  function Credited(a: Account, credential: string): Account {
    if a.dial.None? then a.(dial := Some(NoDial().(credential := credential, isComplete := credential != "")))
    else if a.dial.value.credential != credential then a.(dial := Some(a.dial.value.(credential := "", isComplete := false)))
    else a
  }

  // ---- one window ----------------------------------------------------------------------

  /** The account after an event, with the edges it took. */
  function Booked(a: Account, e: Event, metrics: bool, edges: nat): (Account, nat, Fate) {
    if e.outcome != 0 then
      if !metrics || e.outcome > 5 then (a, 0, Lost)
      else
        var delta := if e.outcome == 2 then DialDelta(a, e.target, e.port) else 0;
        if e.outcome == 2 && (DialFull(a, e.target, e.port) || edges + delta > EDGES) then (a, 0, Full)
        else (AddDial(a, e.target, e.port, e.outcome), delta, Counted)
    else
      var delta := RequestDelta(a, e.target, e.port);
      if RequestFull(a, e.target, e.port) || edges + delta > EDGES then (a, 0, Full)
      else (AddRequest(a, e.target, e.port, e.tcp), delta, Counted)
  }

  /** Books one event of a mapped subject; `slots` and `edges` are the totals of both
      windows. A new account keeps its slot even if its first event is lost. */
  function Book(w: Window, subject: string, credential: string, e: Event, metrics: bool, slots: nat, edges: nat): (Window, Fate) {
    if subject !in w.accounts && slots >= ACCOUNTS then (w.(lost := w.lost + 1), Full)
    else
      var c := Booked(Opened(w, subject, credential, metrics), e, metrics, edges);
      var w := w.(accounts := w.accounts[subject := c.0]);
      if c.2 == Counted then (w.(edges := w.edges + c.1, accepted := w.accepted + 1), Counted) else (w.(lost := w.lost + 1), c.2)
  }

  // ---- what the counters mean -------------------------------------------------------------

  ghost function PortCounts(m: map<Target, DialTarget>): map<Target, nat> { map t | t in m :: 1 + |m[t].ports| }

  ghost function AttemptCounts(m: map<Target, DialTarget>): map<Target, nat> { map t | t in m :: m[t].attempts }

  ghost function DialEdges(m: map<Target, DialTarget>): nat { Sum(PortCounts(m)) }

  ghost function DialAttempts(m: map<Target, DialTarget>): nat { Sum(AttemptCounts(m)) }

  /** The stored targets, ports and per-target dial ports of an account. */
  ghost function EdgesOf(a: Account): nat { |a.targets| + |a.ports| + DialEdges(a.dialTargets) }

  /** The requests and dials reported for an account. */
  function WorkOf(a: Account): nat { a.requests + DialOf(a).attempts }

  /** Requests add up over targets and over protocols, and the maximum is the true
      maximum over targets. */
  ghost predicate GoodRequests(a: Account, minute: int) {
    && a.requests == a.tcp + a.udp && a.requests == Sum(a.targets)
    && |a.targets| <= PER_ACCOUNT && |a.ports| <= PER_ACCOUNT
    && (forall t :: t in a.targets ==> 1 <= a.targets[t] <= a.maxRequests && t.minute == minute)
    && (a.maxRequests == 0 || exists t :: t in a.targets && a.targets[t] == a.maxRequests)
  }

  ghost predicate GoodTarget(t: DialTarget) { 1 <= |t.ports| <= PER_ACCOUNT && |t.ports| <= t.attempts }

  /** Dials add up over outcomes, refusals over targets, and the reported pair is the
      lexicographic maximum of (ports, attempts) over single targets. */
  ghost predicate GoodDials(a: Account, minute: int) {
    var d := DialOf(a);
    && d.attempts == d.succeeded + d.refused + d.timedOut + d.cancelled + d.otherErrors
    && d.refused == DialAttempts(a.dialTargets) && |a.dialTargets| <= PER_ACCOUNT
    && (d.isComplete ==> d.credential != "")
    && (forall t :: t in a.dialTargets ==> GoodTarget(a.dialTargets[t]) && t.minute == minute && !Exceeds(|a.dialTargets[t].ports|, a.dialTargets[t].attempts, d))
    && ((d.maxPorts == 0 && d.maxAttempts == 0 && a.dialTargets == map[])
        || exists t :: t in a.dialTargets && |a.dialTargets[t].ports| == d.maxPorts && a.dialTargets[t].attempts == d.maxAttempts)
  }

  ghost predicate GoodAccount(a: Account, minute: int) { GoodRequests(a, minute) && GoodDials(a, minute) }

  ghost function WorkMap(m: map<string, Account>): map<string, nat> { map s | s in m :: WorkOf(m[s]) }

  ghost function EdgeMap(m: map<string, Account>): map<string, nat> { map s | s in m :: EdgesOf(m[s]) }

  ghost function Works(m: map<string, Account>): nat { Sum(WorkMap(m)) }

  ghost function TrueEdges(m: map<string, Account>): nat { Sum(EdgeMap(m)) }

  /** `accepted` is what the accounts report, `edges` what they store. */
  ghost predicate GoodWindow(w: Window, minute: int) {
    && w.accepted == Works(w.accounts) && w.edges == TrueEdges(w.accounts)
    && forall s :: s in w.accounts ==> GoodAccount(w.accounts[s], minute)
  }

  // ---- one event keeps what the counters mean ------------------------------------------------

  lemma EmptyCounts(a: Account)
    requires a.requests == 0 && a.dial.None? && |a.targets| == 0 && |a.ports| == 0 && |a.dialTargets| == 0
    ensures WorkOf(a) == 0 && EdgesOf(a) == 0
  {
    hide DialEdges, Sum;
    NoEdges(a.dialTargets);
  }

  lemma NoEdges(m: map<Target, DialTarget>)
    requires |m| == 0
    ensures DialEdges(m) == 0
  {
    hide Sum;
    assert PortCounts(m) == map[];
    SumEmpty(PortCounts(m));
  }

  lemma EmptyGood(a: Account, minute: int)
    requires a.requests == 0 && a.tcp == 0 && a.udp == 0 && a.maxRequests == 0 && a.targets == map[] && a.ports == {}
    requires a.dial.None? && a.dialTargets == map[]
    ensures GoodAccount(a, minute)
  {
    assert Sum(a.targets) == 0 && DialAttempts(a.dialTargets) == 0 by {
      SumEmpty(a.targets);
      SumEmpty(AttemptCounts(a.dialTargets));
    }
    hide Sum, DialAttempts;
  }

  lemma CreditedGood(a: Account, credential: string, minute: int)
    requires GoodAccount(a, minute)
    ensures var b := Credited(a, credential);
            GoodAccount(b, minute)
  {
    hide DialAttempts, DialEdges, Sum;
  }

  lemma GrowSet(s: set<nat>, x: nat)
    ensures |s + {x}| == |s| + (if x in s then 0 else 1)
  {
    if x in s { assert s + {x} == s; }
  }

  lemma GrowMap<T>(m: map<Target, T>, k: Target, v: T)
    ensures |m[k := v]| == |m| + (if k in m then 0 else 1)
  {
    assert m[k := v].Keys == m.Keys + {k};
    if k in m { assert m[k := v].Keys == m.Keys; }
  }

  lemma AddRequestCounts(a: Account, t: Target, port: nat, tcp: bool)
    ensures var b := AddRequest(a, t, port, tcp);
            && b.requests == a.requests + 1 && b.tcp + b.udp == a.tcp + a.udp + 1 && b.dial == a.dial && b.dialTargets == a.dialTargets
            && b.targets == a.targets[t := Hits(a, t) + 1] && b.ports == a.ports + {port}
            && |b.targets| == |a.targets| + (if t in a.targets then 0 else 1) && |b.ports| == |a.ports| + (if port in a.ports then 0 else 1)
  {
    GrowSet(a.ports, port);
    GrowMap(a.targets, t, Hits(a, t) + 1);
  }

  lemma AddRequestWork(a: Account, t: Target, port: nat, tcp: bool)
    ensures var b := AddRequest(a, t, port, tcp);
            WorkOf(b) == WorkOf(a) + 1 && EdgesOf(b) == EdgesOf(a) + RequestDelta(a, t, port)
  {
    AddRequestCounts(a, t, port, tcp);
    hide DialEdges, Sum, AddRequest;
  }

  lemma AddRequestGood(a: Account, t: Target, port: nat, tcp: bool, minute: int)
    requires GoodRequests(a, minute) && !RequestFull(a, t, port) && t.minute == minute
    ensures GoodRequests(AddRequest(a, t, port, tcp), minute)
  {
    AddRequestCounts(a, t, port, tcp);
    SumPut(a.targets, t, Hits(a, t) + 1);
    MaxGood(a, t, port, tcp, minute);
    hide DialAttempts, DialEdges, Sum, AddRequest;
  }

  lemma AddRequestDials(a: Account, t: Target, port: nat, tcp: bool, minute: int)
    requires GoodDials(a, minute)
    ensures GoodDials(AddRequest(a, t, port, tcp), minute)
  {
    hide DialAttempts, DialEdges, Sum;
  }

  lemma MaxGood(a: Account, t: Target, port: nat, tcp: bool, minute: int)
    requires GoodRequests(a, minute) && t.minute == minute
    ensures var b := AddRequest(a, t, port, tcp);
            && (forall u :: u in b.targets ==> 1 <= b.targets[u] <= b.maxRequests && u.minute == minute)
            && exists u :: u in b.targets && b.targets[u] == b.maxRequests
  {
    hide Sum;
    var b := AddRequest(a, t, port, tcp);
    assert b.targets[t] == Hits(a, t) + 1;
    if Hits(a, t) + 1 <= a.maxRequests {
      var u :| u in a.targets && a.targets[u] == a.maxRequests;
      assert u in b.targets && b.targets[u] == b.maxRequests;
    }
  }

  lemma TouchedSums(a: Account, t: Target, port: nat)
    ensures var m := a.dialTargets[t := Touched(a, t, port)];
            DialAttempts(m) == DialAttempts(a.dialTargets) + 1 && DialEdges(m) == DialEdges(a.dialTargets) + DialDelta(a, t, port)
  {
    var d := Touched(a, t, port);
    var m := a.dialTargets[t := d];
    assert AttemptCounts(m) == AttemptCounts(a.dialTargets)[t := d.attempts];
    SumPut(AttemptCounts(a.dialTargets), t, d.attempts);
    assert PortCounts(m) == PortCounts(a.dialTargets)[t := 1 + |d.ports|];
    SumPut(PortCounts(a.dialTargets), t, 1 + |d.ports|);
    if t in a.dialTargets { GrowSet(a.dialTargets[t].ports, port); }
    hide Sum;
  }

  lemma TouchedGood(a: Account, t: Target, port: nat)
    requires t in a.dialTargets ==> GoodTarget(a.dialTargets[t])
    requires !DialFull(a, t, port)
    ensures var d := Touched(a, t, port);
            && GoodTarget(d)
            && (t in a.dialTargets ==> |d.ports| >= |a.dialTargets[t].ports| && d.attempts == a.dialTargets[t].attempts + 1)
  {
    if t in a.dialTargets { GrowSet(a.dialTargets[t].ports, port); }
  }

  lemma AddRefusedCounts(a: Account, t: Target, port: nat)
    ensures var b := AddDial(a, t, port, 2);
            && WorkOf(b) == WorkOf(a) + 1 && EdgesOf(b) == EdgesOf(a) + DialDelta(a, t, port)
            && DialAttempts(b.dialTargets) == DialAttempts(a.dialTargets) + 1 && |b.dialTargets| == |a.dialTargets| + (if t in a.dialTargets then 0 else 1)
  {
    TouchedSums(a, t, port);
    GrowMap(a.dialTargets, t, Touched(a, t, port));
    hide DialAttempts, DialEdges, Sum, Touched, DialDelta;
  }

  lemma AddRefusedGood(a: Account, t: Target, port: nat, minute: int)
    requires GoodDials(a, minute) && t.minute == minute && !DialFull(a, t, port)
    ensures GoodDials(AddDial(a, t, port, 2), minute)
  {
    AddRefusedCounts(a, t, port);
    RaiseGood(a, t, port, minute);
    hide DialAttempts, DialEdges, Sum, Touched, GoodTarget;
    assert |AddDial(a, t, port, 2).dialTargets| <= PER_ACCOUNT;
    hide DialFull, DialDelta;
  }

  /** Raising the pair by the touched target keeps it the lexicographic maximum. */
  lemma RaiseGood(a: Account, t: Target, port: nat, minute: int)
    requires GoodDials(a, minute) && t.minute == minute && !DialFull(a, t, port)
    ensures var d := Touched(a, t, port);
            var all := a.dialTargets[t := d];
            var r := Raise(DialOf(a), d);
            && (forall u :: u in all ==> GoodTarget(all[u]) && u.minute == minute && !Exceeds(|all[u].ports|, all[u].attempts, r))
            && exists u :: u in all && |all[u].ports| == r.maxPorts && all[u].attempts == r.maxAttempts
  {
    TouchedGood(a, t, port);
    hide DialAttempts, Touched, GoodTarget;
    var d := Touched(a, t, port);
    var all := a.dialTargets[t := d];
    var r := Raise(DialOf(a), d);
    assert all[t] == d;
    if !Exceeds(|d.ports|, d.attempts, DialOf(a)) {
      var u :| u in a.dialTargets && |a.dialTargets[u].ports| == r.maxPorts && a.dialTargets[u].attempts == r.maxAttempts;
      assert u != t;
      assert all[u] == a.dialTargets[u];
    }
  }

  lemma AddOtherGood(a: Account, t: Target, port: nat, outcome: nat, minute: int)
    requires GoodDials(a, minute) && outcome != 2
    ensures GoodDials(AddDial(a, t, port, outcome), minute)
  {
    hide DialAttempts, DialEdges, Sum;
  }

  lemma AddDialRequests(a: Account, t: Target, port: nat, outcome: nat, minute: int)
    requires GoodRequests(a, minute)
    ensures GoodRequests(AddDial(a, t, port, outcome), minute)
  {
    hide Sum;
  }

  lemma PutWork(m: map<string, Account>, subject: string, a: Account)
    ensures Works(m[subject := a]) == Works(m) - (if subject in m then WorkOf(m[subject]) else 0) + WorkOf(a)
  {
    hide WorkOf, Sum;
    assert WorkMap(m[subject := a]) == WorkMap(m)[subject := WorkOf(a)];
    SumPut(WorkMap(m), subject, WorkOf(a));
  }

  lemma PutEdges(m: map<string, Account>, subject: string, a: Account)
    ensures TrueEdges(m[subject := a]) == TrueEdges(m) - (if subject in m then EdgesOf(m[subject]) else 0) + EdgesOf(a)
  {
    hide EdgesOf, Sum;
    assert EdgeMap(m[subject := a]) == EdgeMap(m)[subject := EdgesOf(a)];
    SumPut(EdgeMap(m), subject, EdgesOf(a));
  }

  lemma BookedGood(a: Account, e: Event, metrics: bool, edges: nat)
    requires GoodAccount(a, e.minute) && e.target.minute == e.minute
    ensures GoodAccount(Booked(a, e, metrics, edges).0, e.minute)
  {
    if Booked(a, e, metrics, edges).2 == Counted {
      if e.outcome == 0 {
        AddRequestGood(a, e.target, e.port, e.tcp, e.minute);
        AddRequestDials(a, e.target, e.port, e.tcp, e.minute);
      } else {
        AddDialRequests(a, e.target, e.port, e.outcome, e.minute);
        if e.outcome == 2 { AddRefusedGood(a, e.target, e.port, e.minute); } else { AddOtherGood(a, e.target, e.port, e.outcome, e.minute); }
      }
    }
    hide GoodRequests, GoodDials, AddDial, AddRequest, DialDelta, RequestDelta, DialFull, RequestFull;
  }

  lemma BookedCounts(a: Account, e: Event, metrics: bool, edges: nat)
    requires edges <= EDGES
    ensures var c := Booked(a, e, metrics, edges);
            && WorkOf(c.0) == WorkOf(a) + (if c.2 == Counted then 1 else 0)
            && EdgesOf(c.0) == EdgesOf(a) + c.1 && edges + c.1 <= EDGES && (c.2 != Counted ==> c.1 == 0)
  {
    AddRequestWork(a, e.target, e.port, e.tcp);
    AddRefusedCounts(a, e.target, e.port);
    hide DialEdges, Sum, DialDelta, RequestDelta, DialFull, RequestFull, Touched;
    if e.outcome == 0 || e.outcome == 2 { hide AddDial, AddRequest, WorkOf, EdgesOf; }
  }

  lemma GrowAccounts(m: map<string, Account>, k: string, v: Account)
    ensures |m[k := v]| == |m| + (if k in m then 0 else 1)
  {
    assert m[k := v].Keys == m.Keys + {k};
    if k in m { assert m[k := v].Keys == m.Keys; }
  }

  lemma CreditedCounts(a: Account, credential: string)
    ensures WorkOf(Credited(a, credential)) == WorkOf(a) && EdgesOf(Credited(a, credential)) == EdgesOf(a)
  {
    hide DialEdges, Sum;
  }

  /** The account an event starts from. */
  function Opened(w: Window, subject: string, credential: string, metrics: bool): Account {
    var a := if subject in w.accounts then w.accounts[subject] else Empty();
    if metrics then Credited(a, credential) else a
  }

  lemma OpenedGood(w: Window, subject: string, credential: string, metrics: bool, minute: int)
    requires GoodWindow(w, minute)
    ensures GoodAccount(Opened(w, subject, credential, metrics), minute)
  {
    EmptyGood(Empty(), minute);
    var a := if subject in w.accounts then w.accounts[subject] else Empty();
    assert GoodAccount(a, minute);
    CreditedGood(a, credential, minute);
    hide GoodRequests, GoodDials, Credited;
  }

  lemma OpenedCounts(w: Window, subject: string, credential: string, metrics: bool)
    ensures var a := Opened(w, subject, credential, metrics);
            && WorkOf(a) == (if subject in w.accounts then WorkOf(w.accounts[subject]) else 0)
            && EdgesOf(a) == (if subject in w.accounts then EdgesOf(w.accounts[subject]) else 0)
  {
    EmptyIs();
    hide WorkOf, EdgesOf, Credited, Empty;
    EmptyCounts(Empty());
    CreditedCounts(if subject in w.accounts then w.accounts[subject] else Empty(), credential);
  }

  lemma EmptyIs()
    ensures var a := Empty();
            a.requests == 0 && a.dial.None? && |a.targets| == 0 && |a.ports| == 0 && |a.dialTargets| == 0
  {
  }

  /** The totals of both windows: `slots` accounts and `edges` stored edges. */
  ghost predicate Within(w: Window, slots: nat, edges: nat) { |w.accounts| <= slots <= ACCOUNTS && w.edges <= edges <= EDGES }

  lemma BookTotals(w: Window, subject: string, credential: string, e: Event, metrics: bool, slots: nat, edges: nat)
    requires w.accepted == Works(w.accounts) && w.edges == TrueEdges(w.accounts) && Within(w, slots, edges)
    ensures var v := Book(w, subject, credential, e, metrics, slots, edges).0;
            v.accepted == Works(v.accounts) && v.edges == TrueEdges(v.accounts)
  {
    hide WorkOf, EdgesOf, Works, TrueEdges, Booked, Opened;
    var a := Opened(w, subject, credential, metrics);
    var c := Booked(a, e, metrics, edges);
    OpenedCounts(w, subject, credential, metrics);
    BookedCounts(a, e, metrics, edges);
    PutWork(w.accounts, subject, c.0);
    PutEdges(w.accounts, subject, c.0);
  }

  /** Booking an event keeps the meaning of every counter. */
  lemma BookGood(w: Window, subject: string, credential: string, e: Event, metrics: bool, slots: nat, edges: nat)
    requires GoodWindow(w, e.minute) && e.target.minute == e.minute && Within(w, slots, edges)
    ensures GoodWindow(Book(w, subject, credential, e, metrics, slots, edges).0, e.minute)
  {
    hide GoodAccount, Works, TrueEdges, Booked, Opened;
    BookTotals(w, subject, credential, e, metrics, slots, edges);
    OpenedGood(w, subject, credential, metrics, e.minute);
    BookedGood(Opened(w, subject, credential, metrics), e, metrics, edges);
  }

  /** ... adds exactly one to accepted or lost, leaves other accounts alone, and stays
      within both shared limits. */
  lemma BookCounts(w: Window, subject: string, credential: string, e: Event, metrics: bool, slots: nat, edges: nat)
    requires Within(w, slots, edges)
    ensures var (v, fate) := Book(w, subject, credential, e, metrics, slots, edges);
            && v.partial == w.partial && v.unmapped == w.unmapped
            && v.accepted == w.accepted + (if fate == Counted then 1 else 0) && v.lost == w.lost + (if fate == Counted then 0 else 1)
            && slots - |w.accounts| + |v.accounts| <= ACCOUNTS && edges - w.edges + v.edges <= EDGES
            && (fate == Counted ==> subject in v.accounts)
            && (forall s :: s != subject ==> (s in v.accounts <==> s in w.accounts) && (s in v.accounts ==> v.accounts[s] == w.accounts[s]))
  {
    var a := Opened(w, subject, credential, metrics);
    BookedCounts(a, e, metrics, edges);
    GrowAccounts(w.accounts, subject, Booked(a, e, metrics, edges).0);
    hide WorkOf, EdgesOf, Booked, Credited;
  }
}
