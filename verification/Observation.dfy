/** The collector of common/beupobserve/observer.go: producers that never wait for
    the lock, a bounded queue, a generation counter that is odd while identities
    change, two adjacent minute windows and their closing. */
module Observation {
  import opened Counters
  import opened Sums
  import opened Windows

  const QUEUE: nat := 512
  const BUDGET: nat := 8
  const BINDINGS: nat := 50000

  datatype AuthRef = AuthRef(tag: string, uid: int, credential: string)

  type Registry = map<string, map<int, string>>

  datatype Marker = Marker(sequence: nat, minute: int)

  datatype Drops = Drops(invalid: nat, contention: nat, boundary: nat, capacity: nat, discarded: nat)

  datatype Core = Core(
    registry: Registry, revision: string, bindings: map<string, string>, authRefs: map<string, AuthRef>, generation: nat,
    pending: seq<Event>, window: Window, next: Option<Window>, start: int, dropped: nat, clockGap: bool, drops: Drops,
    marker: Marker, sequence: nat, metrics: bool)

  /** Whole minutes; the division truncates toward zero. */
  function Minute(seconds: int): int { if seconds >= 0 then seconds / 60 * 60 else -(-seconds / 60 * 60) }

  function Lookup(c: Core, key: string): Option<string> { if key in c.bindings then Some(c.bindings[key]) else None }

  /** The subject registered for an authenticated reference. */
  function SubjectOf(r: Registry, ref: AuthRef): Option<string> {
    if ref.tag in r && ref.uid in r[ref.tag] && r[ref.tag][ref.uid] != "" then Some(r[ref.tag][ref.uid]) else None
  }

  function CredentialOf(c: Core, key: string): string { if key in c.authRefs then c.authRefs[key].credential else "" }

  function NextOf(c: Core): Window { if c.next.Some? then c.next.value else NoWindow() }

  function Slots(c: Core): nat { |c.window.accounts| + |NextOf(c).accounts| }

  function Edges(c: Core): nat { c.window.edges + NextOf(c).edges }

  // ---- recording -----------------------------------------------------------------

  predicate Stale(c: Core, e: Event) { e.generation % 2 != 0 || e.generation != c.generation }

  predicate Outside(c: Core, e: Event) { e.minute < c.start || e.minute > c.start + 60 }

  /** One event into the window of its minute. */
  function RecordIn(c: Core, w: Window, e: Event): (Window, Fate) {
    if e.key in c.bindings then Book(w, c.bindings[e.key], CredentialOf(c, e.key), e, c.metrics, Slots(c), Edges(c))
    else (w.(unmapped := w.unmapped + 1), Lost)
  }

  function Overflowed(d: Drops, fate: Fate): Drops { if fate == Full then d.(capacity := d.capacity + 1) else d }

  /** `recordPreparedLocked`. */
  function Record(c: Core, e: Event): Core {
    if Stale(c, e) then c.(dropped := c.dropped + 1, drops := c.drops.(discarded := c.drops.discarded + 1))
    else if Outside(c, e) then c.(dropped := c.dropped + 1, drops := c.drops.(boundary := c.drops.boundary + 1), clockGap := true)
    else if e.minute == c.start + 60 then
      var r := RecordIn(c, NextOf(c), e);
      c.(next := Some(r.0), drops := Overflowed(c.drops, r.1))
    else
      var r := RecordIn(c, c.window, e);
      c.(window := r.0, drops := Overflowed(c.drops, r.1))
  }

  /** A sample counted for a subject in the window of a minute. `again` is what its
      producer's second clock reading showed; a sample drained from the queue has
      none. */
  datatype Entry = Entry(subject: string, minute: int, event: Event, again: Option<int>)

  /** What `Record` counts. */
  function Counts(c: Core, e: Event, again: Option<int>): seq<Entry> {
    if Stale(c, e) || Outside(c, e) || e.key !in c.bindings then []
    else if e.minute == c.start + 60 then
      if RecordIn(c, NextOf(c), e).1 == Counted then [Entry(c.bindings[e.key], c.start + 60, e, again)] else []
    else if RecordIn(c, c.window, e).1 == Counted then [Entry(c.bindings[e.key], c.start, e, again)] else []
  }

  /** `drainPendingLocked`. */
  function Drain(c: Core, limit: nat): Core
    decreases limit
  {
    if limit == 0 || c.pending == [] then c else Drain(Record(c.(pending := c.pending[1..]), c.pending[0]), limit - 1)
  }

  // ---- the clock --------------------------------------------------------------------

  function Dropped(c: Core): Core { c.(dropped := c.dropped + 1, clockGap := true, drops := c.drops.(boundary := c.drops.boundary + 1)) }

  /** The marker after a reading, and whether the reading goes backwards. */
  function Mark(m: Marker, minute: int, sequence: nat): (Marker, bool) {
    if sequence < m.sequence then (m, true)
    else if minute < m.minute then (m, false)
    else if minute == m.minute then (m, true)
    else (Marker(sequence, minute), true)
  }

  /** Inside the window, and still refused because of the marker. */
  predicate Reverses(c: Core, minute: int, sequence: nat) {
    c.start <= minute <= c.start + 60 && !Mark(c.marker, minute, sequence).1
  }

  /** `observeMinute`. */
  function ObserveMinute(c: Core, minute: int, sequence: nat): (Core, bool) {
    if minute < c.start || minute > c.start + 60 then (Dropped(c), false)
    else
      var r := Mark(c.marker, minute, sequence);
      if r.1 then (c.(marker := r.0), true) else (Dropped(c), false)
  }

  // ---- closing a window ------------------------------------------------------------------

  datatype Quality = Quality(partial: bool, clockGap: bool, dropped: nat, unmapped: nat)

  datatype Closed = Closed(revision: string, start: int, end: int, quality: Quality, accounts: map<string, Account>)

  /** The window closes on time: it is reported, and the lookahead takes its place. */
  function CloseOnTime(c: Core, end: int): (Core, Closed) {
    var n := NextOf(c);
    (c.(start := end, window := n.(partial := n.partial || c.dropped > 0 || c.clockGap), next := None, dropped := 0, clockGap := false),
     Closed(c.revision, c.start, end, Quality(c.window.partial || c.dropped > 0, c.clockGap, c.dropped + c.window.lost, c.window.unmapped), c.window.accounts))
  }

  /** The runner stalled: nothing is reported per account, everything as loss. */
  function CloseLate(c: Core, end: int): (Core, Closed) {
    var n := NextOf(c);
    var discarded := c.window.accepted + n.accepted;
    (c.(start := end, window := NoWindow().(partial := true), next := None, dropped := 0, clockGap := false,
        drops := c.drops.(discarded := c.drops.discarded + discarded)),
     Closed(c.revision, end - 60, end, Quality(true, true, c.dropped + c.window.lost + n.lost + discarded, c.window.unmapped + n.unmapped), map[]))
  }

  /** The critical section of `Snapshot` after its drain. */
  function Close(c: Core, end: int): (Core, Closed) { if end - c.start == 60 then CloseOnTime(c, end) else CloseLate(c, end) }

  // ---- identity changes ----------------------------------------------------------------------

  datatype Change =
    | Bind(key: string, ref: AuthRef)
    | Unbind(key: string)
    | UnbindTag(tag: string)
    | Replace(revision: string, registry: Registry)
    | Forget                                       // the proxy core was reloaded

  predicate BindRefused(c: Core, key: string) { |c.authRefs| >= BINDINGS && key !in c.authRefs }

  predicate SameRef(c: Core, key: string, ref: AuthRef) { key in c.authRefs && c.authRefs[key] == ref }

  function Rebound(r: Registry, refs: map<string, AuthRef>): map<string, string> {
    map key | key in refs && SubjectOf(r, refs[key]).Some? :: SubjectOf(r, refs[key]).value
  }

  /** The identity maps after a change. */
  function Apply(c: Core, change: Change): Core {
    match change
    case Bind(key, ref) =>
      var subject := SubjectOf(c.registry, ref);
      var d := c.(authRefs := c.authRefs[key := ref]);
      if subject.None? then d.(bindings := c.bindings - {key})
      else if |c.bindings| >= BINDINGS && key !in c.bindings then d
      else d.(bindings := c.bindings[key := subject.value])
    case Unbind(key) => c.(bindings := c.bindings - {key}, authRefs := c.authRefs - {key})
    case UnbindTag(tag) =>
      c.(bindings := c.bindings - Tagged(c, tag), authRefs := c.authRefs - Tagged(c, tag))
    case Replace(revision, registry) => c.(registry := registry, revision := revision, bindings := Rebound(registry, c.authRefs))
    case Forget => c.(bindings := map[], authRefs := map[])
  }

  /** The middle of `resetWindowsLocked`: what was accepted, lost or queued becomes
      visible loss; unmapped counts are kept. */
  function Reset(c: Core): Core {
    var n := NextOf(c);
    var gone := c.window.accepted + n.accepted + |c.pending|;
    c.(pending := [], dropped := c.dropped + gone + c.window.lost + n.lost, drops := c.drops.(discarded := c.drops.discarded + gone),
       window := NoWindow().(partial := true, unmapped := c.window.unmapped + n.unmapped), next := None)
  }

  function Bump(c: Core): Core { c.(generation := c.generation + 1) }

  // ---- the system --------------------------------------------------------------------------------

  /** A producer under the lock takes another number and reads the clock again, in
      two separate actions. */
  datatype Again = NotYet | Took(sequence: nat) | Shown(sequence: nat, minute: int)

  /** Who holds the lock, and how far it has come. */
  datatype Lock =
    | Free
    | Recording(event: Event, left: nat, again: Again)
    | Draining(left: nat, closing: Option<int>)
    | Changing(change: Change, phase: nat)

  /** How far a producer has come before it tries the lock: the generation is read,
      the number taken, the clock read, the minute accepted. */
  datatype Stage = Loaded | Numbered | Stamped | Passed

  datatype Flying = Flying(event: Event, sequence: nat, stage: Stage)

  /** A clock reading and the number its producer had taken before. */
  datatype Reading = Reading(sequence: nat, minute: int)

  /** `log`, `readings` (in the order in which the clock was read) and `reversals` (the
      readings refused because of the marker) belong to the specification. */
  datatype Sys = Sys(
    core: Core, lock: Lock, flying: multiset<Flying>, attempts: nat, closed: seq<Closed>, log: seq<Entry>, readings: seq<Reading>, reversals: nat)

  datatype Step =
    | Malformed
    | Arrive(key: string, value: string, port: nat, tcp: bool, outcome: nat)
    | Number(flying: Flying)
    | Read(flying: Flying, seconds: int)
    | Check(flying: Flying)
    | Enter(flying: Flying)
    | DrainOne
    | Renumber
    | Reread(seconds: int)
    | Finish
    | BeginDrain(at: Option<int>)
    | EndDrain
    | BeginChange(change: Change)
    | Advance

  /** A sample before its producer has read the clock. */
  function Unread(c: Core, key: string, value: string, port: nat, tcp: bool, outcome: nat): Event {
    Event(key, Target(0, value), 0, c.generation, port, tcp, outcome, Lookup(c, key), 0)
  }

  /** The first clock reading. */
  function Stamp(e: Event, minute: int): Event { e.(minute := minute, target := e.target.(minute := minute), prepared := minute) }

  function Prepared(c: Core, key: string, value: string, port: nat, tcp: bool, outcome: nat, minute: int): Event {
    Stamp(Unread(c, key, value, port, tcp, outcome), minute)
  }

  /** The second one, which may move the sample to another minute. */
  function Restamped(e: Event, minute: int): Event { e.(minute := minute, target := e.target.(minute := minute)) }

  /** What one producer adds when the lock is taken. */
  function EnqueueTo(c: Core, e: Event): Core {
    if |c.pending| < QUEUE then c.(pending := c.pending + [e])
    else c.(dropped := c.dropped + 1, drops := c.drops.(contention := c.drops.contention + 1))
  }

  /** ... and when it gets the lock: drain, read the clock again, record. */
  function RecordTo(c: Core, e: Event, minute: int): Core {
    var d := Drain(c, BUDGET);
    var r := ObserveMinute(d.(sequence := d.sequence + 1), minute, d.sequence + 1);
    if r.1 then Record(r.0, Restamped(e, minute)) else r.0
  }

  /** One call of `observeEvent` that nothing else interrupts. */
  function ObserveTo(c: Core, key: string, value: string, port: nat, tcp: bool, outcome: nat, first: int, locked: bool, second: int): Core {
    var r := ObserveMinute(c.(sequence := c.sequence + 1), first, c.sequence + 1);
    var e := Prepared(c, key, value, port, tcp, outcome, first);
    if !r.1 then r.0 else if locked then EnqueueTo(r.0, e) else RecordTo(r.0, e, second)
  }

  predicate MayDrain(l: Lock) { ((l.Recording? && l.again == NotYet) || l.Draining?) && l.left > 0 }

  function Spent(l: Lock): Lock
    requires MayDrain(l)
  {
    match l
    case Recording(e, left, again) => Recording(e, left - 1, again)
    case Draining(left, closing) => Draining(left - 1, closing)
  }

  function RecordSys(s: Sys, e: Event, again: Option<int>): Sys { s.(core := Record(s.core, e), log := s.log + Counts(s.core, e, again)) }

  /** One producer takes its next action. */
  function Moved(s: Sys, f: Flying, g: Flying): Sys { s.(flying := s.flying - multiset{f} + multiset{g}) }

  function NumberTo(s: Sys, f: Flying): Sys {
    if f !in s.flying || f.stage != Loaded then s
    else Moved(s, f, f.(sequence := s.core.sequence + 1, stage := Numbered)).(core := s.core.(sequence := s.core.sequence + 1))
  }

  function ReadTo(s: Sys, f: Flying, minute: int): Sys {
    if f !in s.flying || f.stage != Numbered then s
    else Moved(s, f, f.(event := Stamp(f.event, minute), stage := Stamped)).(readings := s.readings + [Reading(f.sequence, minute)])
  }

  function Backwards(s: Sys, minute: int, sequence: nat): nat { if Reverses(s.core, minute, sequence) then s.reversals + 1 else s.reversals }

  function EnterTo(s: Sys, f: Flying): Sys {
    if f !in s.flying || f.stage != Passed then s
    else
      var s := s.(flying := s.flying - multiset{f});
      if s.lock.Free? then s.(lock := Recording(f.event, BUDGET, NotYet))
      else s.(core := EnqueueTo(s.core, f.event))
  }

  function CheckTo(s: Sys, f: Flying): Sys {
    if f !in s.flying || f.stage != Stamped then s
    else
      var r := ObserveMinute(s.core, f.event.minute, f.sequence);
      var s := s.(core := r.0, flying := s.flying - multiset{f}, reversals := Backwards(s, f.event.minute, f.sequence));
      if r.1 then s.(flying := s.flying + multiset{f.(stage := Passed)}) else s
  }

  function RenumberTo(s: Sys): Sys {
    if !s.lock.Recording? || s.lock.again != NotYet || (s.lock.left > 0 && s.core.pending != []) then s
    else s.(core := s.core.(sequence := s.core.sequence + 1), lock := s.lock.(again := Took(s.core.sequence + 1)))
  }

  function RereadTo(s: Sys, minute: int): Sys {
    if !s.lock.Recording? || !s.lock.again.Took? then s
    else s.(lock := s.lock.(again := Shown(s.lock.again.sequence, minute)), readings := s.readings + [Reading(s.lock.again.sequence, minute)])
  }

  function FinishTo(s: Sys): Sys {
    if !s.lock.Recording? || !s.lock.again.Shown? then s
    else
      var minute, sequence := s.lock.again.minute, s.lock.again.sequence;
      var r := ObserveMinute(s.core, minute, sequence);
      var t := s.(core := r.0, lock := Free, reversals := Backwards(s, minute, sequence));
      if r.1 then RecordSys(t, Restamped(s.lock.event, minute), Some(minute)) else t
  }

  function EndDrainTo(s: Sys): Sys {
    if !s.lock.Draining? || (s.lock.left > 0 && s.core.pending != []) then s
    else if s.lock.closing.None? then s.(lock := Free)
    else
      var r := Close(s.core, s.lock.closing.value);
      s.(lock := Free, core := r.0, closed := s.closed + [r.1])
  }

  /** Single changes bump the generation, apply, and bump it again; replacement and
      reload apply first and bump around the reset. */
  function AdvanceCore(c: Core, change: Change, phase: nat): Core {
    if Wholesale(change) then
      if phase == 0 then Apply(c, change) else if phase == 2 then Reset(c) else Bump(c)
    else if change.Bind? && phase == 0 then
      if BindRefused(c, change.key) then c else if SameRef(c, change.key, change.ref) then Apply(c, change) else Bump(c)
    else if phase == 1 then Apply(c, change)
    else Bump(c)
  }

  function AdvanceLock(c: Core, change: Change, phase: nat): Lock {
    if phase >= (if Wholesale(change) then 3 else 2) then Free
    else if change.Bind? && phase == 0 && (BindRefused(c, change.key) || SameRef(c, change.key, change.ref)) then Free
    else Changing(change, phase + 1)
  }

  function AdvanceTo(s: Sys): Sys {
    if !s.lock.Changing? then s
    else s.(core := AdvanceCore(s.core, s.lock.change, s.lock.phase), lock := AdvanceLock(s.core, s.lock.change, s.lock.phase))
  }

  function ArriveTo(s: Sys, step: Step): Sys
    requires step.Arrive?
  {
    var e := Unread(s.core, step.key, step.value, step.port, step.tcp, step.outcome);
    s.(attempts := s.attempts + 1, flying := s.flying + multiset{Flying(e, 0, Loaded)})
  }

  function Next(s: Sys, step: Step): Sys {
    match step
    case Malformed => s.(attempts := s.attempts + 1, core := s.core.(dropped := s.core.dropped + 1, drops := s.core.drops.(invalid := s.core.drops.invalid + 1)))
    case Arrive(_, _, _, _, _) => ArriveTo(s, step)
    case Number(f) => NumberTo(s, f)
    case Read(f, seconds) => ReadTo(s, f, Minute(seconds))
    case Check(f) => CheckTo(s, f)
    case Enter(f) => EnterTo(s, f)
    case DrainOne =>
      if MayDrain(s.lock) && s.core.pending != [] then
        RecordSys(s.(lock := Spent(s.lock), core := s.core.(pending := s.core.pending[1..])), s.core.pending[0], None)
      else s
    case Renumber => RenumberTo(s)
    case Reread(seconds) => RereadTo(s, Minute(seconds))
    case Finish => FinishTo(s)
    case BeginDrain(at) =>
      if !s.lock.Free? || (at.Some? && Minute(at.value) <= s.core.start) then s
      else s.(lock := Draining(QUEUE, if at.Some? then Some(Minute(at.value)) else None))
    case EndDrain => EndDrainTo(s)
    case BeginChange(change) => if s.lock.Free? then s.(lock := Changing(change, 0)) else s
    case Advance => AdvanceTo(s)
  }

  function Run(s: Sys, steps: seq<Step>): Sys
    decreases |steps|
  {
    if steps == [] then s else Run(Next(s, steps[0]), steps[1..])
  }

  // ---- conservation --------------------------------------------------------------------------------

  function Mass(w: Window): nat { w.accepted + w.lost + w.unmapped }

  /** What the collector still holds, queued, windowed or in the shared loss counter. */
  function Held(c: Core): nat { |c.pending| + Mass(c.window) + Mass(NextOf(c)) + c.dropped }

  /** What a closed window reports: requests and dials, drops, unmapped. */
  ghost function Reported(r: Closed): nat { Works(r.accounts) + r.quality.dropped + r.quality.unmapped }

  ghost function AllReported(closed: seq<Closed>): nat {
    if closed == [] then 0 else AllReported(closed[..|closed| - 1]) + Reported(closed[|closed| - 1])
  }

  ghost predicate Conserved(s: Sys) {
    s.attempts == |s.flying| + (if s.lock.Recording? then 1 else 0) + Held(s.core) + AllReported(s.closed)
  }

  ghost predicate Whole(minute: int) { minute % 60 == 0 }

  ghost predicate GoodEvent(e: Event) { e.target.minute == e.minute && Whole(e.minute) }

  /** Both windows mean what they say and share the limits. */
  ghost predicate GoodCore(c: Core) {
    && Whole(c.start) && GoodWindow(c.window, c.start) && GoodWindow(NextOf(c), c.start + 60)
    && Slots(c) <= ACCOUNTS && Edges(c) <= EDGES && |c.pending| <= QUEUE
    && forall e :: e in c.pending ==> GoodEvent(e)
  }

  ghost predicate GoodLock(l: Lock) {
    && (l.Recording? ==> GoodEvent(l.event) && (l.again.Shown? ==> Whole(l.again.minute)))
    && (l.Draining? && l.closing.Some? ==> Whole(l.closing.value))
  }

  ghost predicate Sound(s: Sys) { GoodCore(s.core) && GoodLock(s.lock) && (forall f :: f in s.flying ==> GoodEvent(f.event)) && Conserved(s) }

  lemma WholeMultiple(k: int)
    ensures Whole(k * 60)
  {
  }

  lemma WholeMinute(t: int)
    ensures Whole(Minute(t))
  {
    hide Whole;
    if t >= 0 { WholeMultiple(t / 60); } else { WholeMultiple(-(-t / 60)); }
  }

  /** Recording an event puts exactly one more into what the core holds. */
  lemma RecordInAdds(c: Core, w: Window, e: Event)
    requires Within(w, Slots(c), Edges(c))
    ensures var v := RecordIn(c, w, e).0;
            && Mass(v) == Mass(w) + 1
            && Slots(c) - |w.accounts| + |v.accounts| <= ACCOUNTS && Edges(c) - w.edges + v.edges <= EDGES
  {
    if e.key in c.bindings { BookCounts(w, c.bindings[e.key], CredentialOf(c, e.key), e, c.metrics, Slots(c), Edges(c)); }
    hide Book, Slots, Edges;
  }

  lemma RecordInGood(c: Core, w: Window, e: Event)
    requires GoodWindow(w, e.minute) && e.target.minute == e.minute && Within(w, Slots(c), Edges(c))
    ensures GoodWindow(RecordIn(c, w, e).0, e.minute)
  {
    hide GoodAccount;
    if e.key in c.bindings { BookGood(w, c.bindings[e.key], CredentialOf(c, e.key), e, c.metrics, Slots(c), Edges(c)); }
    hide Book, Works, TrueEdges;
  }

  /** The window an event belongs to is the one of its own minute. */
  lemma Placed(c: Core, e: Event)
    requires Whole(c.start) && Whole(e.minute) && !Outside(c, e)
    ensures e.minute == c.start || e.minute == c.start + 60
  {
  }

  lemma RecordKeeps(c: Core, e: Event)
    requires GoodCore(c) && GoodEvent(e)
    ensures GoodCore(Record(c, e))
  {
    hide GoodWindow, RecordIn, Mass;
    if !Stale(c, e) && !Outside(c, e) {
      Placed(c, e);
      var w := if e.minute == c.start + 60 then NextOf(c) else c.window;
      RecordInAdds(c, w, e);
      RecordInGood(c, w, e);
    }
  }

  lemma RecordHolds(c: Core, e: Event)
    requires GoodCore(c) && GoodEvent(e)
    ensures var d := Record(c, e);
            Held(d) == Held(c) + 1 && d.pending == c.pending && d.start == c.start && d.generation == c.generation
            && d.registry == c.registry && d.bindings == c.bindings && d.authRefs == c.authRefs
  {
    hide GoodWindow, RecordIn, Mass;
    if !Stale(c, e) && !Outside(c, e) {
      var w := if e.minute == c.start + 60 then NextOf(c) else c.window;
      RecordInAdds(c, w, e);
    }
  }

  lemma BlankWindow(partial: bool, unmapped: nat, minute: int)
    ensures GoodWindow(NoWindow().(partial := partial, unmapped := unmapped), minute)
  {
    var w := NoWindow().(partial := partial, unmapped := unmapped);
    SumEmpty(WorkMap(w.accounts));
    SumEmpty(EdgeMap(w.accounts));
    hide GoodAccount, Sum;
  }

  /** Closing moves everything the windows and the loss counter hold into the report,
      except what already belongs to the next minute. */
  lemma CloseConserves(c: Core, end: int)
    requires c.window.accepted == Works(c.window.accounts)
    ensures Held(Close(c, end).0) + Reported(Close(c, end).1) == Held(c)
  {
    hide CloseOnTime, CloseLate, Held, Reported, Works;
    if end - c.start == 60 { OnTimeConserves(c, end); } else { LateConserves(c, end); }
  }

  lemma OnTimeConserves(c: Core, end: int)
    requires c.window.accepted == Works(c.window.accounts)
    ensures Held(CloseOnTime(c, end).0) + Reported(CloseOnTime(c, end).1) == Held(c)
  {
    NoMass();
    hide Works, NoWindow;
    var (d, r) := CloseOnTime(c, end);
    assert Mass(d.window) == Mass(NextOf(c)) by { hide NextOf; }
    assert d.next.None? && d.dropped == 0 && d.pending == c.pending by { hide NextOf; }
    assert Reported(r) == Mass(c.window) + c.dropped by { hide NextOf; }
    hide CloseOnTime, Mass, Reported;
  }

  lemma NextNone(c: Core)
    requires c.next.None?
    ensures NextOf(c) == NoWindow()
  {
  }

  lemma NoWorks()
    ensures Works(map[]) == 0
  {
    SumEmpty(WorkMap(map[]));
  }

  lemma NoMass()
    ensures Mass(NoWindow()) == 0 && Mass(NoWindow().(partial := true)) == 0
  {
  }

  lemma LateConserves(c: Core, end: int)
    ensures Held(CloseLate(c, end).0) + Reported(CloseLate(c, end).1) == Held(c)
  {
    NoMass();
    NoWorks();
    hide Works, NoWindow, NextOf;
    var (d, r) := CloseLate(c, end);
    assert d.window == NoWindow().(partial := true) && d.next.None? && d.dropped == 0 && d.pending == c.pending by { hide Mass; }
    assert Reported(r) == Mass(c.window) + Mass(NextOf(c)) + c.dropped;
    hide CloseLate, Mass, Reported;
    NextNone(d);
  }

  /** The same windows, queue and start. */
  ghost predicate Alike(c: Core, d: Core) { d.window == c.window && d.next == c.next && d.start == c.start && d.pending == c.pending }

  lemma AlikeGood(c: Core, d: Core)
    requires GoodCore(c) && Alike(c, d)
    ensures GoodCore(d) && Held(d) - d.dropped == Held(c) - c.dropped
  {
    hide GoodWindow, Mass;
  }

  lemma Enqueued(c: Core, e: Event)
    requires GoodCore(c) && GoodEvent(e) && |c.pending| < QUEUE
    ensures GoodCore(c.(pending := c.pending + [e])) && Held(c.(pending := c.pending + [e])) == Held(c) + 1
  {
    hide GoodWindow, Mass;
  }

  lemma Dequeued(c: Core)
    requires GoodCore(c) && c.pending != []
    ensures GoodCore(c.(pending := c.pending[1..])) && Held(c.(pending := c.pending[1..])) + 1 == Held(c) && GoodEvent(c.pending[0])
  {
    hide GoodWindow, Mass;
  }

  /** The windows after a change of minute. */
  lemma GoodCoreFrom(c: Core)
    requires Whole(c.start) && GoodWindow(c.window, c.start) && c.next.None? && |c.window.accounts| <= ACCOUNTS && c.window.edges <= EDGES
    requires |c.pending| <= QUEUE && forall e :: e in c.pending ==> GoodEvent(e)
    ensures GoodCore(c)
  {
    hide GoodWindow;
    BlankWindow(false, 0, c.start + 60);
    assert NoWindow().(partial := false, unmapped := 0) == NoWindow();
  }

  lemma OnTimeKeeps(c: Core)
    requires GoodCore(c)
    ensures GoodCore(CloseOnTime(c, c.start + 60).0)
  {
    hide Works, TrueEdges, GoodAccount;
    var d := CloseOnTime(c, c.start + 60).0;
    SameCounts(NextOf(c), d.window, c.start + 60);
    hide GoodWindow, NoWindow;
    GoodCoreFrom(d);
  }

  lemma SameCounts(w: Window, v: Window, minute: int)
    requires GoodWindow(w, minute) && v.accounts == w.accounts && v.accepted == w.accepted && v.edges == w.edges
    ensures GoodWindow(v, minute)
  {
    hide GoodAccount, Works, TrueEdges;
  }

  lemma LateKeeps(c: Core, end: int)
    requires GoodCore(c) && Whole(end)
    ensures GoodCore(CloseLate(c, end).0)
  {
    hide GoodWindow;
    BlankWindow(true, 0, end);
    assert NoWindow().(partial := true, unmapped := 0) == NoWindow().(partial := true);
    GoodCoreFrom(CloseLate(c, end).0);
  }

  lemma CloseKeeps(c: Core, end: int)
    requires GoodCore(c) && Whole(end)
    ensures GoodCore(Close(c, end).0)
  {
    hide GoodCore, CloseOnTime, CloseLate;
    if end - c.start == 60 { OnTimeKeeps(c); } else { LateKeeps(c, end); }
  }

  lemma ResetKeeps(c: Core)
    requires GoodCore(c)
    ensures GoodCore(Reset(c)) && Held(Reset(c)) == Held(c)
  {
    hide GoodWindow;
    BlankWindow(true, c.window.unmapped + NextOf(c).unmapped, c.start);
    GoodCoreFrom(Reset(c));
  }

  lemma ObserveAlike(c: Core, minute: int, sequence: nat)
    ensures var r := ObserveMinute(c, minute, sequence);
            Alike(c, r.0) && r.0.dropped == c.dropped + (if r.1 then 0 else 1) && SameIdentity(c, r.0)
  {
  }

  // ---- every step keeps the quantities -------------------------------------------------------

  /** The same identity maps and generation. */
  ghost predicate SameIdentity(c: Core, d: Core) {
    d.registry == c.registry && d.bindings == c.bindings && d.authRefs == c.authRefs && d.generation == c.generation
  }

  lemma ArriveSound(s: Sys, step: Step)
    requires Sound(s) && step.Arrive?
    ensures Sound(ArriveTo(s, step))
  {
    hide GoodCore, Held, AllReported;
  }

  lemma NumberSound(s: Sys, f: Flying)
    requires Sound(s)
    ensures Sound(NumberTo(s, f))
  {
    hide GoodCore, Held, AllReported;
    AlikeGood(s.core, s.core.(sequence := s.core.sequence + 1));
  }

  lemma ReadSound(s: Sys, f: Flying, minute: int)
    requires Sound(s) && Whole(minute)
    ensures Sound(ReadTo(s, f, minute))
  {
    hide GoodCore, Held, AllReported;
  }

  lemma AgainSound(s: Sys, minute: int)
    requires Sound(s) && Whole(minute)
    ensures Sound(RenumberTo(s)) && Sound(RereadTo(s, minute))
  {
    hide GoodCore, Held, AllReported;
    AlikeGood(s.core, s.core.(sequence := s.core.sequence + 1));
  }

  lemma CheckSound(s: Sys, f: Flying)
    requires Sound(s)
    ensures Sound(CheckTo(s, f))
  {
    hide GoodCore, ObserveMinute, Held, AllReported;
    ObserveAlike(s.core, f.event.minute, f.sequence);
    AlikeGood(s.core, ObserveMinute(s.core, f.event.minute, f.sequence).0);
  }

  lemma EnterSound(s: Sys, f: Flying)
    requires Sound(s)
    ensures Sound(EnterTo(s, f))
  {
    hide GoodCore, Held, AllReported;
    if f in s.flying && f.stage == Passed && !s.lock.Free? {
      if |s.core.pending| < QUEUE { Enqueued(s.core, f.event); } else { AlikeGood(s.core, EnterTo(s, f).core); }
    }
  }

  lemma DrainSound(s: Sys)
    requires Sound(s)
    ensures Sound(Next(s, DrainOne))
  {
    hide GoodCore, Record, Counts, Held, AllReported;
    if MayDrain(s.lock) && s.core.pending != [] {
      Dequeued(s.core);
      RecordKeeps(s.core.(pending := s.core.pending[1..]), s.core.pending[0]);
      RecordHolds(s.core.(pending := s.core.pending[1..]), s.core.pending[0]);
    }
  }

  lemma FinishSound(s: Sys)
    requires Sound(s)
    ensures Sound(FinishTo(s))
  {
    hide GoodCore, ObserveMinute, Record, Counts, Held, AllReported, Whole;
    if s.lock.Recording? && s.lock.again.Shown? {
      var minute, sequence := s.lock.again.minute, s.lock.again.sequence;
      var d := ObserveMinute(s.core, minute, sequence).0;
      ObserveAlike(s.core, minute, sequence);
      AlikeGood(s.core, d);
      RecordKeeps(d, Restamped(s.lock.event, minute));
      RecordHolds(d, Restamped(s.lock.event, minute));
    }
  }

  lemma AcceptedWorks(c: Core)
    requires GoodCore(c)
    ensures c.window.accepted == Works(c.window.accounts)
  {
    hide Works;
  }

  lemma EndDrainSound(s: Sys)
    requires Sound(s)
    ensures Sound(EndDrainTo(s))
  {
    hide GoodCore, Held, Reported, Close, Works;
    if s.lock.Draining? && s.lock.closing.Some? {
      AcceptedWorks(s.core);
      CloseKeeps(s.core, s.lock.closing.value);
      CloseConserves(s.core, s.lock.closing.value);
      var r := Close(s.core, s.lock.closing.value).1;
      assert (s.closed + [r])[..|s.closed|] == s.closed;
    }
  }

  lemma AdvanceSound(s: Sys)
    requires Sound(s)
    ensures Sound(AdvanceTo(s))
  {
    hide GoodCore, Held, AllReported, Apply, Reset;
    if s.lock.Changing? {
      ApplyAlike(s.core, s.lock.change);
      AlikeGood(s.core, Apply(s.core, s.lock.change));
      AlikeGood(s.core, Bump(s.core));
      ResetKeeps(s.core);
    }
  }

  lemma ApplyAlike(c: Core, change: Change)
    ensures Alike(c, Apply(c, change)) && Apply(c, change).dropped == c.dropped && Apply(c, change).generation == c.generation
  {
  }

  lemma QuietSound(s: Sys, step: Step)
    requires Sound(s) && (step.Malformed? || step.BeginDrain? || step.BeginChange?)
    ensures Sound(Next(s, step))
  {
    hide GoodCore, Held, AllReported, Minute;
    if step.BeginDrain? && step.at.Some? { WholeMinute(step.at.value); }
    AlikeGood(s.core, Next(s, step).core);
  }

  lemma StepSound(s: Sys, step: Step)
    requires Sound(s)
    ensures Sound(Next(s, step))
  {
    hide Sound;
    match step
    case Arrive(_, _, _, _, _) => ArriveSound(s, step);
    case Number(f) => NumberSound(s, f);
    case Read(f, seconds) =>
      WholeMinute(seconds);
      ReadSound(s, f, Minute(seconds));
    case Check(f) => CheckSound(s, f);
    case Enter(f) => EnterSound(s, f);
    case DrainOne => DrainSound(s);
    case Renumber => AgainSound(s, 0);
    case Reread(seconds) =>
      WholeMinute(seconds);
      AgainSound(s, Minute(seconds));
    case Finish => FinishSound(s);
    case EndDrain => EndDrainSound(s);
    case Advance => AdvanceSound(s);
    case _ => QuietSound(s, step);
  }

  lemma {:induction false} RunSound(s: Sys, steps: seq<Step>)
    requires Sound(s)
    ensures Sound(Run(s, steps))
    decreases |steps|
  {
    hide Sound;
    if steps != [] {
      StepSound(s, steps[0]);
      RunSound(Next(s, steps[0]), steps[1..]);
    }
  }

  // ---- identities ------------------------------------------------------------------------------

  /** The bindings are the authenticated references seen through the registry. */
  ghost predicate Coherent(c: Core) { c.bindings == Rebound(c.registry, c.authRefs) && |c.authRefs| <= BINDINGS }

  predicate Wholesale(change: Change) { change.Replace? || change.Forget? }

  /** The lock holder is between its two increments. */
  predicate Mutating(l: Lock) { l.Changing? && (if Wholesale(l.change) then 2 <= l.phase <= 3 else 1 <= l.phase <= 2) }

  /** Identities have changed, the generation not yet. */
  predicate Dirty(l: Lock) { l.Changing? && Wholesale(l.change) && l.phase == 1 }

  ghost predicate PhaseOk(c: Core, l: Lock) {
    l.Changing? ==> l.phase <= (if Wholesale(l.change) then 3 else 2) && (l.change.Bind? && l.phase == 1 ==> !BindRefused(c, l.change.key))
  }

  /** A sample whose generation is still the current, even one was observed under the
      binding its label has now. */
  ghost predicate Claim(c: Core, dirty: bool, e: Event) {
    e.generation <= c.generation && (e.generation == c.generation && c.generation % 2 == 0 && !dirty ==> e.observed == Lookup(c, e.key))
  }

  /** Until it is counted, a sample also keeps the minute of its preparation. */
  ghost predicate Untouched(c: Core, dirty: bool, e: Event) { Claim(c, dirty, e) && e.minute == e.prepared }

  ghost predicate Claims(s: Sys, c: Core, dirty: bool) {
    && (forall e :: e in s.core.pending ==> Untouched(c, dirty, e))
    && (forall f :: f in s.flying ==> Untouched(c, dirty, f.event))
    && (s.lock.Recording? ==> Untouched(c, dirty, s.lock.event))
  }

  ghost predicate Identified(s: Sys) {
    && Coherent(s.core) && PhaseOk(s.core, s.lock) && (s.core.generation % 2 == 1 <==> Mutating(s.lock))
    && Claims(s, s.core, Dirty(s.lock))
  }

  /** A counted sample went to the subject its label was bound to when it was
      observed; from the queue it went to the minute it was prepared in, and from its
      own producer to the minute of that producer's second reading. */
  ghost predicate HonestEntry(x: Entry) {
    x.event.observed == Some(x.subject) && x.minute == if x.again.None? then x.event.prepared else x.again.value
  }

  ghost predicate Honest(log: seq<Entry>) { forall i :: 0 <= i < |log| ==> HonestEntry(log[i]) }

  lemma ReboundOne(r: Registry, refs: map<string, AuthRef>, key: string, ref: AuthRef)
    ensures Rebound(r, refs[key := ref]) == if SubjectOf(r, ref).None? then Rebound(r, refs) - {key} else Rebound(r, refs)[key := SubjectOf(r, ref).value]
  {
    hide SubjectOf;
  }

  lemma ReboundWithout(r: Registry, refs: map<string, AuthRef>, gone: set<string>)
    ensures Rebound(r, refs - gone) == Rebound(r, refs) - gone
  {
    hide SubjectOf;
  }

  lemma RefsGrow(refs: map<string, AuthRef>, key: string, ref: AuthRef)
    ensures |refs[key := ref]| == |refs| + (if key in refs then 0 else 1)
  {
    assert refs[key := ref].Keys == refs.Keys + {key};
    if key in refs { assert refs[key := ref].Keys == refs.Keys; }
  }

  lemma RefsShrink(refs: map<string, AuthRef>, gone: set<string>)
    ensures |refs - gone| <= |refs|
  {
    SetSize((refs - gone).Keys, refs.Keys);
  }

  /** The second capacity check of `Bind` can never fire. */
  lemma BindRoom(c: Core, key: string)
    requires Coherent(c) && !BindRefused(c, key)
    ensures !(|c.bindings| >= BINDINGS && key !in c.bindings)
  {
    hide SubjectOf;
    if key !in c.bindings {
      SetSize(c.bindings.Keys, c.authRefs.Keys - {key});
      assert |c.authRefs.Keys| == |c.authRefs| && |c.bindings.Keys| == |c.bindings|;
      assert key !in c.authRefs ==> c.authRefs.Keys - {key} == c.authRefs.Keys;
    }
  }

  /** Binding keeps the bindings equal to the references seen through the registry,
      and binding the same reference again changes nothing. */
  lemma BindCoherent(c: Core, key: string, ref: AuthRef)
    requires Coherent(c) && !BindRefused(c, key)
    ensures Coherent(Apply(c, Bind(key, ref)))
  {
    BindRoom(c, key);
    ReboundOne(c.registry, c.authRefs, key, ref);
    RefsGrow(c.authRefs, key, ref);
    hide Rebound, SubjectOf;
  }

  lemma BindAgain(c: Core, key: string, ref: AuthRef)
    requires Coherent(c) && SameRef(c, key, ref)
    ensures Apply(c, Bind(key, ref)) == c
  {
    ReboundOne(c.registry, c.authRefs, key, ref);
    assert c.authRefs[key := ref] == c.authRefs;
    BindRoom(c, key);
    hide Rebound;
  }

  lemma SetSize(a: set<string>, b: set<string>)
    requires a <= b
    ensures |a| <= |b|
  {
    assert b == a + (b - a);
  }

  function Tagged(c: Core, tag: string): set<string> { set key | key in c.authRefs && c.authRefs[key].tag == tag }

  lemma DropCoherent(c: Core, d: Core, gone: set<string>)
    requires Coherent(c) && d.registry == c.registry && d.authRefs == c.authRefs - gone && d.bindings == c.bindings - gone
    ensures Coherent(d)
  {
    ReboundWithout(c.registry, c.authRefs, gone);
    RefsShrink(c.authRefs, gone);
    hide Rebound;
  }

  lemma WholesaleCoherent(c: Core, change: Change)
    requires Coherent(c) && Wholesale(change)
    ensures Coherent(Apply(c, change))
  {
    hide SubjectOf;
  }

  lemma ApplyCoherent(c: Core, change: Change)
    requires Coherent(c) && (change.Bind? ==> !BindRefused(c, change.key))
    ensures Coherent(Apply(c, change))
  {
    hide Coherent;
    var d := Apply(c, change);
    match change
    case Bind(key, ref) => BindCoherent(c, key, ref);
    case Unbind(key) => DropCoherent(c, d, {key});
    case UnbindTag(tag) => DropCoherent(c, d, Tagged(c, tag));
    case _ => WholesaleCoherent(c, change);
  }

  // ---- every step keeps the identities ---------------------------------------------------------

  /** Claims survive unless the generation stays while the bindings change. */
  ghost predicate Shifts(s: Sys, t: Sys) {
    && s.core.generation <= t.core.generation
    && (t.core.generation == s.core.generation && t.core.generation % 2 == 0 && !Dirty(t.lock) ==> !Dirty(s.lock) && t.core.bindings == s.core.bindings)
  }

  lemma ShiftClaim(s: Sys, t: Sys, e: Event)
    requires Shifts(s, t) && Untouched(s.core, Dirty(s.lock), e)
    ensures Untouched(t.core, Dirty(t.lock), e)
  {
  }

  lemma ShiftIdentified(s: Sys, t: Sys)
    requires Identified(s) && Shifts(s, t) && Coherent(t.core) && PhaseOk(t.core, t.lock) && (t.core.generation % 2 == 1 <==> Mutating(t.lock))
    requires forall f :: f in t.flying ==> f in s.flying
    requires forall e :: e in t.core.pending ==> e in s.core.pending
    requires !t.lock.Recording?
    ensures Identified(t)
  {
    hide Coherent, PhaseOk, Mutating, Untouched, Shifts, Dirty;
    forall e | e in t.core.pending ensures Untouched(t.core, Dirty(t.lock), e) { ShiftClaim(s, t, e); }
    forall f | f in t.flying ensures Untouched(t.core, Dirty(t.lock), f.event) { ShiftClaim(s, t, f.event); }
  }

  lemma AdvanceIdentified(s: Sys)
    requires Identified(s) && s.lock.Changing?
    ensures Identified(AdvanceTo(s))
  {
    var t := AdvanceTo(s);
    AdvanceCoherent(s);
    AdvancePhase(s);
    AdvanceShifts(s);
    AdvanceCarries(s);
    hide Identified, AdvanceTo, Coherent, PhaseOk, Mutating, Shifts;
    ShiftIdentified(s, t);
  }

  lemma AdvanceCoherent(s: Sys)
    requires Coherent(s.core) && PhaseOk(s.core, s.lock) && s.lock.Changing?
    ensures Coherent(AdvanceTo(s).core)
  {
    hide Coherent, Apply;
    var c, change := s.core, s.lock.change;
    if !(change.Bind? && BindRefused(c, change.key)) { ApplyCoherent(c, change); }
    CoherentSame(c, Bump(c));
    CoherentSame(c, Reset(c));
  }

  lemma CoherentSame(c: Core, d: Core)
    requires d.registry == c.registry && d.bindings == c.bindings && d.authRefs == c.authRefs
    ensures Coherent(c) <==> Coherent(d)
  {
  }

  lemma AdvanceGeneration(c: Core, change: Change, phase: nat)
    ensures var d := AdvanceCore(c, change, phase);
            && d.generation == c.generation + (if Mutating(Changing(change, phase)) != Mutating(AdvanceLock(c, change, phase)) then 1 else 0)
            && (d.pending == c.pending || d.pending == [])
            && (change.Bind? && phase == 0 ==> d.authRefs == c.authRefs || AdvanceLock(c, change, phase) == Free)
    requires phase <= (if Wholesale(change) then 3 else 2)
  {
    hide Apply, Reset, BindRefused, SameRef;
    ApplyAlike(c, change);
    ResetSame(c);
  }

  lemma AdvancePhase(s: Sys)
    requires PhaseOk(s.core, s.lock) && s.lock.Changing? && (s.core.generation % 2 == 1 <==> Mutating(s.lock))
    ensures var t := AdvanceTo(s);
            PhaseOk(t.core, t.lock) && (t.core.generation % 2 == 1 <==> Mutating(t.lock)) && !t.lock.Recording?
  {
    AdvanceGeneration(s.core, s.lock.change, s.lock.phase);
    hide AdvanceCore, Mutating;
  }

  lemma ResetSame(c: Core)
    ensures SameIdentity(c, Reset(c)) && Reset(c).pending == []
  {
  }

  lemma AdvanceCarries(s: Sys)
    requires s.lock.Changing? && PhaseOk(s.core, s.lock)
    ensures AdvanceTo(s).flying == s.flying && forall e :: e in AdvanceTo(s).core.pending ==> e in s.core.pending
  {
    AdvanceGeneration(s.core, s.lock.change, s.lock.phase);
    hide AdvanceCore, AdvanceLock;
  }

  lemma AdvanceShifts(s: Sys)
    requires Identified(s) && s.lock.Changing?
    ensures Shifts(s, AdvanceTo(s))
  {
    var c, change := s.core, s.lock.change;
    ApplyAlike(c, change);
    if change.Bind? && SameRef(c, change.key, change.ref) { BindAgain(c, change.key, change.ref); }
    hide Apply, Coherent, Claims, Reset;
    ResetSame(c);
  }

  /** The other steps leave identities, generation and lock class alone. */
  lemma KeepIdentified(s: Sys, t: Sys)
    requires Identified(s) && SameIdentity(s.core, t.core) && Mutating(t.lock) == Mutating(s.lock) && Dirty(t.lock) == Dirty(s.lock) && PhaseOk(t.core, t.lock)
    requires forall e :: e in t.core.pending ==> e in s.core.pending || Untouched(s.core, Dirty(s.lock), e)
    requires forall f :: f in t.flying ==> f in s.flying || Untouched(s.core, Dirty(s.lock), f.event)
    requires t.lock.Recording? ==> Untouched(s.core, Dirty(s.lock), t.lock.event)
    ensures Identified(t)
  {
    hide Rebound, PhaseOk, Mutating, Dirty;
    forall e | Untouched(s.core, Dirty(s.lock), e) ensures Untouched(t.core, Dirty(t.lock), e) { }
  }

  lemma RecordIdentity(c: Core, e: Event)
    ensures SameIdentity(c, Record(c, e)) && Record(c, e).pending == c.pending
  {
    hide RecordIn, NextOf, Stale, Outside, Overflowed;
  }

  /** Counting under the lock is honest. */
  lemma CountsHonest(s: Sys, e: Event, again: Option<int>)
    requires Coherent(s.core) && s.core.generation % 2 == 0 && Claim(s.core, false, e) && Whole(s.core.start) && GoodEvent(e)
    requires e.minute == if again.None? then e.prepared else again.value
    ensures Honest(Counts(s.core, e, again))
  {
    hide RecordIn;
    if !Outside(s.core, e) { Placed(s.core, e); }
  }

  lemma HonestOn(a: seq<Entry>, b: seq<Entry>)
    requires Honest(a) && Honest(b)
    ensures Honest(a + b)
  {
  }

  /** A step of a lock holder that records. */
  lemma RecordIdentified(s: Sys, e: Event, again: Option<int>)
    requires Identified(s) && Honest(s.log) && !s.lock.Changing? && Claim(s.core, false, e) && Whole(s.core.start) && GoodEvent(e)
    requires e.minute == if again.None? then e.prepared else again.value
    ensures Identified(RecordSys(s, e, again)) && Honest(RecordSys(s, e, again).log)
  {
    hide Record, Counts, Coherent;
    RecordIdentity(s.core, e);
    CountsHonest(s, e, again);
    HonestOn(s.log, Counts(s.core, e, again));
    KeepIdentified(s, RecordSys(s, e, again));
  }

  lemma WholeStart(s: Sys)
    requires Sound(s)
    ensures Whole(s.core.start) && (s.core.pending != [] ==> GoodEvent(s.core.pending[0]))
    ensures s.lock.Recording? && s.lock.again.Shown? ==> GoodEvent(Restamped(s.lock.event, s.lock.again.minute))
  {
    hide GoodWindow, Conserved;
  }

  /** The state in which the oldest queued event is about to be recorded. */
  function Popped(s: Sys): Sys
    requires MayDrain(s.lock) && s.core.pending != []
  {
    s.(lock := Spent(s.lock), core := s.core.(pending := s.core.pending[1..]))
  }

  lemma PoppedIdentified(s: Sys)
    requires Identified(s) && MayDrain(s.lock) && s.core.pending != []
    ensures Identified(Popped(s)) && Untouched(Popped(s).core, false, s.core.pending[0]) && !Popped(s).lock.Changing?
  {
    hide Coherent;
    var t := Popped(s);
    assert Untouched(s.core, false, s.core.pending[0]);
    KeepIdentified(s, t);
  }

  lemma DrainIdentified(s: Sys)
    requires Identified(s) && Sound(s) && Honest(s.log)
    ensures Identified(Next(s, DrainOne)) && Honest(Next(s, DrainOne).log)
  {
    hide Sound, Identified, Record, Counts, Honest, Whole, Claim;
    WholeStart(s);
    if MayDrain(s.lock) && s.core.pending != [] {
      PoppedIdentified(s);
      RecordIdentified(Popped(s), s.core.pending[0], None);
      assert Next(s, DrainOne) == RecordSys(Popped(s), s.core.pending[0], None);
    }
  }

  /** The state in which the second reading of the lock holder has been judged. */
  function Judged(s: Sys): Sys
    requires s.lock.Recording? && s.lock.again.Shown?
  {
    s.(core := ObserveMinute(s.core, s.lock.again.minute, s.lock.again.sequence).0, lock := Free,
       reversals := Backwards(s, s.lock.again.minute, s.lock.again.sequence))
  }

  lemma JudgedIdentified(s: Sys)
    requires Identified(s) && s.lock.Recording? && s.lock.again.Shown?
    ensures var t := Judged(s);
            Identified(t) && Claim(t.core, false, Restamped(s.lock.event, s.lock.again.minute)) && t.core.start == s.core.start && t.log == s.log
  {
    hide Coherent, ObserveMinute;
    ObserveAlike(s.core, s.lock.again.minute, s.lock.again.sequence);
    assert Claim(s.core, false, s.lock.event);
    KeepIdentified(s, Judged(s));
  }

  lemma FinishIdentified(s: Sys)
    requires Identified(s) && Sound(s) && Honest(s.log)
    ensures Identified(FinishTo(s)) && Honest(FinishTo(s).log)
  {
    hide Sound, Identified, Record, Counts, Honest, Whole, Claim, ObserveMinute, Backwards;
    WholeStart(s);
    if s.lock.Recording? && s.lock.again.Shown? {
      JudgedIdentified(s);
      RecordIdentified(Judged(s), Restamped(s.lock.event, s.lock.again.minute), Some(s.lock.again.minute));
    }
  }

  lemma ArriveIdentified(s: Sys, step: Step)
    requires Identified(s) && step.Arrive?
    ensures Identified(ArriveTo(s, step))
  {
    hide Coherent;
    KeepIdentified(s, ArriveTo(s, step));
  }

  lemma NumberIdentified(s: Sys, f: Flying, minute: int)
    requires Identified(s)
    ensures Identified(NumberTo(s, f)) && Identified(ReadTo(s, f, minute))
  {
    hide Identified, Stamp;
    if f in s.flying {
      MoveIdentified(s, f, f.(sequence := s.core.sequence + 1, stage := Numbered), s.core.(sequence := s.core.sequence + 1), s.readings);
      assert Stamp(f.event, minute).minute == minute by { StampMinute(f.event, minute); }
      MoveIdentified(s, f, f.(event := Stamp(f.event, minute), stage := Stamped), s.core, s.readings + [Reading(f.sequence, minute)]);
    }
  }

  lemma StampMinute(e: Event, minute: int)
    ensures Stamp(e, minute).minute == minute
  {
  }

  lemma MoveIdentified(s: Sys, f: Flying, g: Flying, c: Core, readings: seq<Reading>)
    requires Identified(s) && f in s.flying && (g.event == f.event || g.event == Stamp(f.event, g.event.minute)) && c == s.core.(sequence := c.sequence)
    ensures Identified(Moved(s, f, g).(core := c, readings := readings))
  {
    hide Coherent;
    KeepIdentified(s, Moved(s, f, g).(core := c, readings := readings));
  }

  lemma AgainIdentified(s: Sys, minute: int)
    requires Identified(s)
    ensures Identified(RenumberTo(s)) && Identified(RereadTo(s, minute))
  {
    hide Coherent;
    KeepIdentified(s, RenumberTo(s));
    KeepIdentified(s, RereadTo(s, minute));
  }

  lemma CheckIdentified(s: Sys, f: Flying)
    requires Identified(s)
    ensures Identified(CheckTo(s, f))
  {
    hide Coherent, ObserveMinute;
    ObserveAlike(s.core, f.event.minute, f.sequence);
    KeepIdentified(s, CheckTo(s, f));
  }

  lemma EnterIdentified(s: Sys, f: Flying)
    requires Identified(s)
    ensures Identified(EnterTo(s, f))
  {
    hide Coherent;
    KeepIdentified(s, EnterTo(s, f));
  }

  lemma EndDrainIdentified(s: Sys)
    requires Identified(s)
    ensures Identified(EndDrainTo(s))
  {
    if s.lock.Draining? && s.lock.closing.Some? { CloseIdentity(s.core, s.lock.closing.value); }
    hide Coherent, Close;
    KeepIdentified(s, EndDrainTo(s));
  }

  lemma CloseIdentity(c: Core, end: int)
    ensures SameIdentity(c, Close(c, end).0) && Close(c, end).0.pending == c.pending
  {
  }

  lemma QuietIdentified(s: Sys, step: Step)
    requires Identified(s) && (step.Malformed? || step.BeginDrain? || step.BeginChange?)
    ensures Identified(Next(s, step))
  {
    hide Coherent, Minute;
    KeepIdentified(s, Next(s, step));
  }

  ghost predicate Inv(s: Sys) { Sound(s) && Identified(s) && Honest(s.log) }

  lemma LogKept(s: Sys, step: Step)
    ensures !step.DrainOne? && !step.Finish? ==> Next(s, step).log == s.log
  {
    hide ObserveMinute, Stamp, Backwards, Close, AdvanceCore, AdvanceLock, Record, Counts, Minute;
  }

  lemma StepKeeps(s: Sys, step: Step)
    requires Inv(s)
    ensures Inv(Next(s, step))
  {
    hide Sound, Identified, Honest, ArriveTo, NumberTo, ReadTo, CheckTo, EnterTo, RenumberTo, RereadTo, FinishTo, EndDrainTo, AdvanceTo;
    StepSound(s, step);
    LogKept(s, step);
    match step
    case Arrive(_, _, _, _, _) => ArriveIdentified(s, step);
    case Number(f) => NumberIdentified(s, f, 0);
    case Read(f, seconds) => NumberIdentified(s, f, Minute(seconds));
    case Check(f) => CheckIdentified(s, f);
    case Enter(f) => EnterIdentified(s, f);
    case DrainOne => DrainIdentified(s);
    case Renumber => AgainIdentified(s, 0);
    case Reread(seconds) => AgainIdentified(s, Minute(seconds));
    case Finish => FinishIdentified(s);
    case EndDrain => EndDrainIdentified(s);
    case Advance => if s.lock.Changing? { AdvanceIdentified(s); } else { AdvanceStays(s); }
    case _ => QuietIdentified(s, step);
  }

  lemma AdvanceStays(s: Sys)
    requires !s.lock.Changing?
    ensures AdvanceTo(s) == s
  {
  }

  lemma {:induction false} RunKeeps(s: Sys, steps: seq<Step>)
    requires Inv(s)
    ensures Inv(Run(s, steps))
    decreases |steps|
  {
    hide Inv;
    if steps != [] {
      StepKeeps(s, steps[0]);
      RunKeeps(Next(s, steps[0]), steps[1..]);
    }
  }

  // ---- the theorems --------------------------------------------------------------------------------

  /** A new collector for a registry, created at some second. */
  function Initial(registry: Registry, revision: string, metrics: bool, seconds: int): Sys {
    var start := Minute(seconds);
    Sys(Core(registry, revision, map[], map[], 0, [], NoWindow().(partial := seconds != start), None, start, 0, false, Drops(0, 0, 0, 0, 0),
             Marker(0, start), 0, metrics), Free, multiset{}, 0, [], [], [], 0)
  }

  lemma InitialCore(registry: Registry, revision: string, metrics: bool, seconds: int)
    ensures var c := Initial(registry, revision, metrics, seconds).core;
            GoodCore(c) && Held(c) == 0
  {
    var c := Initial(registry, revision, metrics, seconds).core;
    hide Minute, GoodWindow;
    WholeMinute(seconds);
    BlankWindow(seconds != c.start, 0, c.start);
    assert NoWindow().(partial := seconds != c.start, unmapped := 0) == c.window;
    GoodCoreFrom(c);
    hide GoodCore;
  }

  lemma InitialSound(registry: Registry, revision: string, metrics: bool, seconds: int)
    ensures Sound(Initial(registry, revision, metrics, seconds))
  {
    hide GoodCore, Held, Minute, NoWindow;
    InitialCore(registry, revision, metrics, seconds);
  }

  lemma InitialInv(registry: Registry, revision: string, metrics: bool, seconds: int)
    ensures Inv(Initial(registry, revision, metrics, seconds))
  {
    InitialSound(registry, revision, metrics, seconds);
    hide Minute, Sound;
    var c := Initial(registry, revision, metrics, seconds).core;
    assert Rebound(c.registry, c.authRefs) == map[] by { hide SubjectOf; }
    hide Rebound;
  }

  /** Conservation: over every interleaving, each attempt made is reported as a
      request, a dial, a drop or unmapped, or is still on its way, queued, windowed or
      in the shared loss counter. */
  lemma Conservation(registry: Registry, revision: string, metrics: bool, seconds: int, steps: seq<Step>)
    ensures var s := Run(Initial(registry, revision, metrics, seconds), steps);
            s.attempts == AllReported(s.closed) + Held(s.core) + |s.flying| + (if s.lock.Recording? then 1 else 0)
  {
    InitialInv(registry, revision, metrics, seconds);
    RunKeeps(Initial(registry, revision, metrics, seconds), steps);
  }

  /** Attribution: over every interleaving, every counted sample was observed while
      its label was bound to the subject it was counted for; one from the queue is
      counted in the minute it was prepared in, one from its own producer in the
      minute of that producer's second reading. */
  lemma Attribution(registry: Registry, revision: string, metrics: bool, seconds: int, steps: seq<Step>)
    ensures Honest(Run(Initial(registry, revision, metrics, seconds), steps).log)
  {
    InitialInv(registry, revision, metrics, seconds);
    RunKeeps(Initial(registry, revision, metrics, seconds), steps);
  }

  /** Limits: both windows together hold at most 4096 accounts and 65536 edges, where
      the edges are the true number of stored targets, ports and dial ports; every
      account's counters mean what they say. */
  lemma Limits(registry: Registry, revision: string, metrics: bool, seconds: int, steps: seq<Step>)
    ensures var c := Run(Initial(registry, revision, metrics, seconds), steps).core;
            && |c.window.accounts| + |NextOf(c).accounts| <= 4096
            && TrueEdges(c.window.accounts) + TrueEdges(NextOf(c).accounts) == c.window.edges + NextOf(c).edges <= 65536
            && c.window.accepted == Works(c.window.accounts) && NextOf(c).accepted == Works(NextOf(c).accounts)
            && (forall x :: x in c.window.accounts ==> GoodAccount(c.window.accounts[x], c.start))
            && (forall x :: x in NextOf(c).accounts ==> GoodAccount(NextOf(c).accounts[x], c.start + 60))
            && |c.pending| <= 512
  {
    hide Inv, Run, Initial, GoodAccount, Works, TrueEdges, NextOf;
    InitialInv(registry, revision, metrics, seconds);
    RunKeeps(Initial(registry, revision, metrics, seconds), steps);
    InvLimits(Run(Initial(registry, revision, metrics, seconds), steps));
  }

  lemma InvLimits(s: Sys)
    requires Inv(s)
    ensures var c := s.core;
            && |c.window.accounts| + |NextOf(c).accounts| <= 4096
            && TrueEdges(c.window.accounts) + TrueEdges(NextOf(c).accounts) == c.window.edges + NextOf(c).edges <= 65536
            && c.window.accepted == Works(c.window.accounts) && NextOf(c).accepted == Works(NextOf(c).accounts)
            && (forall x :: x in c.window.accounts ==> GoodAccount(c.window.accounts[x], c.start))
            && (forall x :: x in NextOf(c).accounts ==> GoodAccount(NextOf(c).accounts[x], c.start + 60))
            && |c.pending| <= 512
  {
    hide GoodAccount, Works, TrueEdges, NextOf, Conserved, Identified;
    assert Slots(s.core) == |s.core.window.accounts| + |NextOf(s.core).accounts| && Edges(s.core) == s.core.window.edges + NextOf(s.core).edges;
  }

  /** The bindings are at all times the authenticated references seen through the
      registry, also in the middle of a change. */
  lemma BindingsFollow(registry: Registry, revision: string, metrics: bool, seconds: int, steps: seq<Step>, key: string)
    ensures var c := Run(Initial(registry, revision, metrics, seconds), steps).core;
            && Lookup(c, key) == (if key in c.authRefs then SubjectOf(c.registry, c.authRefs[key]) else None)
            && |c.authRefs| <= 50000
  {
    InitialInv(registry, revision, metrics, seconds);
    RunKeeps(Initial(registry, revision, metrics, seconds), steps);
    hide SubjectOf, Run, Initial;
  }
}
