/** The observer object of common/beupobserve/observer.go and tcp_outcomes.go: its
    methods update the windows, the queue, the counters and the identity maps, each
    proved against the value it computes in `Observation`. */
module Observers {
  import opened Counters
  import opened Windows
  import opened Observation
  import opened Reports

  /** The refused part of `recordDialLocked`: the touched target and the running pair,
      unless a limit is reached. */
  method TouchTarget(a: Account, m: Dial, e: Event, edges: nat) returns (ok: bool, t: DialTarget, d: Dial, delta: nat)
    ensures delta == DialDelta(a, e.target, e.port) && (ok <==> !DialFull(a, e.target, e.port) && edges + delta <= EDGES)
    ensures ok ==> t == Touched(a, e.target, e.port) && d == Raise(m, t)
  {
    var known := e.target in a.dialTargets;
    t, d, delta := DialTarget(0, {}), m, 0;
    if !known {
      delta := 2;
    } else {
      t := a.dialTargets[e.target];
      if e.port !in t.ports {
        delta := 1;
      }
    }
    if (!known && |a.dialTargets| >= PER_ACCOUNT) || (known && |t.ports| >= PER_ACCOUNT && delta > 0) || edges + delta > EDGES {
      ok := false;
      return;
    }
    t := DialTarget(t.attempts + 1, t.ports + {e.port});
    if |t.ports| > m.maxPorts || (|t.ports| == m.maxPorts && t.attempts > m.maxAttempts) {
      d := d.(maxPorts := |t.ports|, maxAttempts := t.attempts);
    }
    ok := true;
  }

  method CountOutcome(m: Dial, outcome: nat) returns (d: Dial)
    ensures d == Tally(m, outcome)
  {
    d := m.(attempts := m.attempts + 1);
    if outcome == 1 {
      d := d.(succeeded := d.succeeded + 1);
    } else if outcome == 2 {
      d := d.(refused := d.refused + 1);
    } else if outcome == 3 {
      d := d.(timedOut := d.timedOut + 1);
    } else if outcome == 4 {
      d := d.(cancelled := d.cancelled + 1);
    } else {
      d := d.(otherErrors := d.otherErrors + 1);
    }
  }

  /** Counts one finished dial in an account (`recordDialLocked`). */
  method RecordDial(a: Account, e: Event, metrics: bool, edges: nat) returns (b: Account, delta: nat, fate: Fate)
    requires e.outcome != 0
    ensures (b, delta, fate) == Booked(a, e, metrics, edges)
  {
    hide DialFull, DialDelta, Touched, Raise, Tally;
    if !metrics || e.outcome > 5 {
      return a, 0, Lost;
    }
    var m := if a.dial.None? then NoDial() else a.dial.value;
    b, delta := a, 0;
    if e.outcome == 2 {
      var ok, t;
      ok, t, m, delta := TouchTarget(a, m, e, edges);
      if !ok {
        return a, 0, Full;
      }
      b := b.(dialTargets := b.dialTargets[e.target := t]);
    }
    m := CountOutcome(m, e.outcome);
    b := b.(dial := Some(m));
    fate := Counted;
  }

  /** Counts one request in an account. */
  method RecordRequest(a: Account, e: Event, metrics: bool, edges: nat) returns (b: Account, delta: nat, fate: Fate)
    requires e.outcome == 0
    ensures (b, delta, fate) == Booked(a, e, metrics, edges)
  {
    delta := 0;
    var knownTarget, knownPort := e.target in a.targets, e.port in a.ports;
    if !knownTarget {
      delta := delta + 1;
    }
    if !knownPort {
      delta := delta + 1;
    }
    if (!knownTarget && |a.targets| >= PER_ACCOUNT) || (!knownPort && |a.ports| >= PER_ACCOUNT) || edges + delta > EDGES {
      assert RequestFull(a, e.target, e.port) || edges + RequestDelta(a, e.target, e.port) > EDGES;
      hide RequestFull, RequestDelta, AddRequest;
      return a, 0, Full;
    }
    assert !RequestFull(a, e.target, e.port) && delta == RequestDelta(a, e.target, e.port);
    b := AddHit(a, e);
    hide RequestFull, RequestDelta, AddRequest;
    fate := Counted;
  }

  method AddHit(a: Account, e: Event) returns (b: Account)
    ensures b == AddRequest(a, e.target, e.port, e.tcp)
  {
    var hits := Hits(a, e.target) + 1;
    b := a.(targets := a.targets[e.target := hits], ports := a.ports + {e.port}, requests := a.requests + 1);
    if e.tcp {
      b := b.(tcp := b.tcp + 1);
    } else {
      b := b.(udp := b.udp + 1);
    }
    if hits > b.maxRequests {
      b := b.(maxRequests := hits);
    }
  }

  class Observer {
    var registry: Registry
    var revision: string
    var bindings: map<string, string>
    var authRefs: map<string, AuthRef>
    var generation: nat
    var pending: seq<Event>
    var window: Window
    var next: Option<Window>
    var start: int
    var dropped: nat
    var clockGap: bool
    var drops: Drops
    var marker: Marker
    var sequence: nat
    var metrics: bool

    ghost function View(): Core
      reads this
    {
      Core(registry, revision, bindings, authRefs, generation, pending, window, next, start, dropped, clockGap, drops, marker, sequence, metrics)
    }

    constructor (registry: Registry, revision: string, metrics: bool, seconds: int)
      ensures View() == Initial(registry, revision, metrics, seconds).core
    {
      this.registry, this.revision, this.metrics := registry, revision, metrics;
      bindings, authRefs, generation, pending := map[], map[], 0, [];
      start := Minute(seconds);
      window, next := NoWindow().(partial := seconds != Minute(seconds)), None;
      dropped, clockGap, drops, marker, sequence := 0, false, Drops(0, 0, 0, 0, 0), Marker(0, Minute(seconds)), 0;
    }

    /** The retry loop of `observeMinute`. `rivals` are the markers other producers
        install between this one's load and its exchange; each makes it try again. */
    method ObserveMinute(minute: int, sequence: nat, rivals: seq<Marker>) returns (ok: bool, ghost seen: nat)
      modifies this`marker, this`dropped, this`clockGap, this`drops
      ensures seen <= |rivals|
      ensures var c := old(View()).(marker := if seen == 0 then old(marker) else rivals[seen - 1]);
              (View(), ok) == Observation.ObserveMinute(c, minute, sequence)
    {
      seen := 0;
      if minute < start || minute > start + 60 {
        clockGap, dropped, drops := true, dropped + 1, drops.(boundary := drops.boundary + 1);
        return false, 0;
      }
      var tries := 0;
      while true
        invariant tries <= |rivals| && seen == tries
        invariant View() == old(View()).(marker := if tries == 0 then old(marker) else rivals[tries - 1])
        decreases |rivals| - tries
      {
        var previous := marker;
        if sequence < previous.sequence {
          return true, seen;
        }
        if minute < previous.minute {
          clockGap, dropped, drops := true, dropped + 1, drops.(boundary := drops.boundary + 1);
          return false, seen;
        }
        if minute == previous.minute {
          return true, seen;
        }
        if tries == |rivals| {
          marker := Marker(sequence, minute);
          return true, seen;
        }
        marker := rivals[tries];
        tries := tries + 1;
        seen := tries;
      }
    }

    /** `recordPreparedLocked`. */
    method RecordPrepared(e: Event)
      modifies this`window, this`next, this`dropped, this`clockGap, this`drops
      ensures View() == Record(old(View()), e)
    {
      hide RecordIn, NoWindow;
      if e.generation % 2 != 0 || e.generation != generation {
        dropped, drops := dropped + 1, drops.(discarded := drops.discarded + 1);
        return;
      }
      if e.minute < start || e.minute > start + 60 {
        clockGap, dropped, drops := true, dropped + 1, drops.(boundary := drops.boundary + 1);
        return;
      }
      var ahead := e.minute == start + 60;
      var w := if !ahead then window else if next.Some? then next.value else NoWindow();
      var v, fate := BookInto(w, e);
      if fate == Full {
        drops := drops.(capacity := drops.capacity + 1);
      }
      if ahead {
        next := Some(v);
      } else {
        window := v;
      }
    }

    /** The rest of it, on the window the event belongs to. */
    method BookInto(w: Window, e: Event) returns (v: Window, fate: Fate)
      ensures (v, fate) == RecordIn(View(), w, e)
    {
      if e.key !in bindings {
        v := w.(unmapped := w.unmapped + 1);
        return v, Lost;
      }
      var slots, edges := Totals();
      v, fate := BookSubject(w, bindings[e.key], if e.key in authRefs then authRefs[e.key].credential else "", e, slots, edges);
      hide Book, Slots, Edges;
    }

    /** The shared totals of both windows. */
    method Totals() returns (slots: nat, edges: nat)
      ensures slots == Slots(View()) && edges == Edges(View())
    {
      slots, edges := |window.accounts|, window.edges;
      if next.Some? {
        slots, edges := slots + |next.value.accounts|, edges + next.value.edges;
      }
    }

    method BookSubject(w: Window, subject: string, credential: string, e: Event, slots: nat, edges: nat) returns (v: Window, fate: Fate)
      ensures (v, fate) == Book(w, subject, credential, e, metrics, slots, edges)
    {
      hide Booked, Credited;
      v := w;
      if subject !in v.accounts && slots >= ACCOUNTS {
        v := v.(lost := v.lost + 1);
        return v, Full;
      }
      var a := if subject in v.accounts then v.accounts[subject] else Empty();
      if metrics {
        a := Credited(a, credential);
      }
      assert a == Opened(w, subject, credential, metrics);
      hide Opened, Empty;
      var delta;
      if e.outcome != 0 {
        a, delta, fate := RecordDial(a, e, metrics, edges);
      } else {
        a, delta, fate := RecordRequest(a, e, metrics, edges);
      }
      v := v.(accounts := v.accounts[subject := a]);
      if fate == Counted {
        v := v.(edges := v.edges + delta, accepted := v.accepted + 1);
      } else {
        v := v.(lost := v.lost + 1);
      }
    }

    /** `drainPendingLocked`. */
    method DrainPending(limit: nat)
      modifies this`pending, this`window, this`next, this`dropped, this`clockGap, this`drops
      ensures View() == Drain(old(View()), limit)
    {
      hide Record;
      var i := 0;
      while i < limit
        invariant i <= limit
        invariant Drain(View(), limit - i) == Drain(old(View()), limit)
      {
        if pending == [] {
          return;
        }
        var e := pending[0];
        pending := pending[1..];
        RecordPrepared(e);
        i := i + 1;
      }
    }

    /** `observeEvent` with well-formed input; `locked` is the answer of `TryLock`. */
    method ObserveEvent(key: string, value: string, port: nat, tcp: bool, outcome: nat, first: int, locked: bool, second: int)
      modifies this
      ensures View() == ObserveTo(old(View()), key, value, port, tcp, outcome, Minute(first), locked, Minute(second))
    {
      hide Minute, Observation.ObserveMinute, RecordTo, EnqueueTo;
      var e, ok := Prepare(key, value, port, tcp, outcome, Minute(first));
      if !ok {
        return;
      }
      if locked {
        Enqueue(e);
        return;
      }
      RecordLocked(e, Minute(second));
    }

    /** Reads the generation and the clock without the lock. */
    method Prepare(key: string, value: string, port: nat, tcp: bool, outcome: nat, minute: int) returns (e: Event, ok: bool)
      modifies this`sequence, this`marker, this`dropped, this`clockGap, this`drops
      ensures e == Prepared(old(View()), key, value, port, tcp, outcome, minute)
      ensures (View(), ok) == Observation.ObserveMinute(old(View()).(sequence := old(sequence) + 1), minute, old(sequence) + 1)
    {
      hide Observation.ObserveMinute;
      e := Event(key, Target(minute, value), minute, generation, port, tcp, outcome, if key in bindings then Some(bindings[key]) else None, minute);
      sequence := sequence + 1;
      ghost var seen;
      ok, seen := ObserveMinute(minute, sequence, []);
    }

    /** A producer that did not get the lock. */
    method Enqueue(e: Event)
      modifies this`pending, this`dropped, this`drops
      ensures View() == EnqueueTo(old(View()), e)
    {
      if |pending| < QUEUE {
        pending := pending + [e];
      } else {
        dropped, drops := dropped + 1, drops.(contention := drops.contention + 1);
      }
    }

    /** The part of `observeEvent` under the lock. */
    method RecordLocked(e: Event, minute: int)
      modifies this
      ensures View() == RecordTo(old(View()), e, minute)
    {
      hide Observation.ObserveMinute, Record, Drain;
      DrainPending(BUDGET);
      sequence := sequence + 1;
      var ok, _ := ObserveMinute(minute, sequence, []);
      if ok {
        var f := if e.minute == minute && e.target.minute == minute then e else Restamped(e, minute);
        RecordPrepared(f);
      }
    }

    /** `Bind` under its lock. */
    method Bind(key: string, ref: AuthRef) returns (mapped: bool)
      requires Coherent(View())
      modifies this`bindings, this`authRefs, this`generation
      ensures var c := old(View());
              View() == if BindRefused(c, key) then c
                        else Apply(c, Observation.Bind(key, ref)).(generation := if SameRef(c, key, ref) then c.generation else c.generation + 2)
      ensures Coherent(View()) && (mapped <==> !BindRefused(old(View()), key) && SubjectOf(registry, ref).Some?)
    {
      ghost var c := View();
      if !BindRefused(c, key) { BindBumped(c, key, ref); }
      hide Coherent, Apply, SubjectOf;
      if |authRefs| >= BINDINGS && key !in authRefs {
        return false;
      }
      if key in authRefs && authRefs[key] == ref {
        mapped := SetBinding(key, ref);
        return;
      }
      mapped := BindChanged(key, ref);
    }

    method BindChanged(key: string, ref: AuthRef) returns (mapped: bool)
      requires Coherent(View()) && !BindRefused(View(), key)
      modifies this`bindings, this`authRefs, this`generation
      ensures View() == Apply(old(View()), Observation.Bind(key, ref)).(generation := old(generation) + 2)
      ensures mapped <==> SubjectOf(registry, ref).Some?
    {
      hide Coherent, Apply, SubjectOf, SameRef;
      BindBumped(View(), key, ref);
      generation := generation + 1;
      mapped := SetBinding(key, ref);
      generation := generation + 1;
    }

    method SetBinding(key: string, ref: AuthRef) returns (mapped: bool)
      modifies this`bindings, this`authRefs
      ensures View() == Apply(old(View()), Observation.Bind(key, ref))
      ensures mapped <==> SubjectOf(registry, ref).Some? && !(|old(bindings)| >= BINDINGS && key !in old(bindings))
    {
      hide SubjectOf;
      var subject := SubjectOf(registry, ref);
      authRefs := authRefs[key := ref];
      if subject.None? {
        bindings := bindings - {key};
        return false;
      }
      if |bindings| >= BINDINGS && key !in bindings {
        return false;
      }
      bindings := bindings[key := subject.value];
      return true;
    }

    method Unbind(key: string)
      requires Coherent(View())
      modifies this`bindings, this`authRefs, this`generation
      ensures View() == Apply(old(View()), Observation.Unbind(key)).(generation := old(generation) + 2)
      ensures Coherent(View())
    {
      hide Coherent;
      ghost var c := View();
      generation := generation + 1;
      bindings := bindings - {key};
      authRefs := authRefs - {key};
      generation := generation + 1;
      DropCoherent(c, View(), {key});
    }

    method UnbindTag(tag: string)
      requires Coherent(View())
      modifies this`bindings, this`authRefs, this`generation
      ensures View() == Apply(old(View()), Observation.UnbindTag(tag)).(generation := old(generation) + 2)
      ensures Coherent(View())
    {
      hide Coherent;
      ghost var c := View();
      generation := generation + 1;
      DropTagged(tag);
      generation := generation + 1;
      DropCoherent(c, View(), Tagged(c, tag));
    }

    method DropTagged(tag: string)
      modifies this`bindings, this`authRefs
      ensures authRefs == old(authRefs) - Tagged(old(View()), tag) && bindings == old(bindings) - Tagged(old(View()), tag)
    {
      var left := authRefs.Keys;
      ghost var gone: set<string> := {};
      while left != {}
        invariant left <= old(authRefs).Keys
        invariant gone == set key | key in old(authRefs) && key !in left && old(authRefs)[key].tag == tag
        invariant authRefs == old(authRefs) - gone && bindings == old(bindings) - gone
      {
        var key :| key in left;
        if authRefs[key].tag == tag {
          authRefs := authRefs - {key};
          bindings := bindings - {key};
          gone := gone + {key};
        }
        left := left - {key};
      }
      assert gone == Tagged(old(View()), tag);
    }

    /** `resetWindowsLocked`. */
    method ResetWindows()
      modifies this`generation, this`pending, this`dropped, this`drops, this`window, this`next
      ensures View() == Reset(old(View())).(generation := old(generation) + 2)
    {
      hide NextOf, NoWindow;
      var n, lost, unmapped := WindowTotals();
      generation := generation + 1;
      var queued := TakePending();
      Blank(n + queued, lost, unmapped);
      generation := generation + 1;
    }

    /** What both windows have accepted, lost and not mapped. */
    method WindowTotals() returns (n: nat, lost: nat, unmapped: nat)
      ensures var w, v := window, NextOf(View());
              n == w.accepted + v.accepted && lost == w.lost + v.lost && unmapped == w.unmapped + v.unmapped
    {
      n, lost, unmapped := window.accepted, window.lost, window.unmapped;
      if next.Some? {
        n := n + next.value.accepted;
        lost := lost + next.value.lost;
        unmapped := unmapped + next.value.unmapped;
      }
    }

    method Blank(n: nat, lost: nat, unmapped: nat)
      modifies this`dropped, this`drops, this`window, this`next
      ensures dropped == old(dropped) + n + lost && drops == old(drops).(discarded := old(drops).discarded + n)
      ensures window == NoWindow().(partial := true, unmapped := unmapped) && next == None
    {
      drops := drops.(discarded := drops.discarded + n);
      dropped := dropped + n + lost;
      window := NoWindow().(partial := true, unmapped := unmapped);
      next := None;
    }

    /** Empties the queue one event at a time. */
    method TakePending() returns (n: nat)
      modifies this`pending
      ensures pending == [] && n == |old(pending)|
    {
      n := 0;
      var i := |pending|;
      while i > 0
        invariant 0 <= i == |pending| && n + i == |old(pending)|
      {
        pending := pending[1..];
        n := n + 1;
        i := i - 1;
      }
    }

    /** `ReplaceRegistry` with a validated registry. */
    method ReplaceRegistry(revision: string, registry: Registry)
      modifies this
      ensures View() == Reset(Apply(old(View()), Replace(revision, registry))).(generation := old(generation) + 2)
      ensures Coherent(old(View())) ==> Coherent(View())
    {
      hide SubjectOf;
      ghost var c := View();
      this.registry, this.revision := registry, revision;
      Rebind();
      ghost var d := Apply(c, Replace(revision, registry));
      assert View() == d;
      ResetSame(d);
      if Coherent(c) { CoherentSame(d, Reset(d).(generation := d.generation + 2)); }
      hide Rebound, Reset, NextOf;
      ResetWindows();
    }

    method Rebind()
      modifies this`bindings
      ensures bindings == Rebound(registry, authRefs)
    {
      hide SubjectOf;
      bindings := map[];
      var left := authRefs.Keys;
      while left != {}
        invariant left <= authRefs.Keys
        invariant bindings == map key | key in authRefs && key !in left && SubjectOf(registry, authRefs[key]).Some? :: SubjectOf(registry, authRefs[key]).value
      {
        var key :| key in left;
        var subject := SubjectOf(registry, authRefs[key]);
        if subject.Some? {
          bindings := bindings[key := subject.value];
        }
        left := left - {key};
      }
      assert bindings == Rebound(registry, authRefs);
    }

    /** `Snapshot`: nothing closes before the minute is over; otherwise the queue is
        drained and the window closed and cut into batches. */
    method Snapshot(at: int) returns (reports: Option<seq<Report>>, ghost names: seq<string>)
      modifies this
      ensures Minute(at) <= old(start) ==> reports.None? && View() == Drain(old(View()), QUEUE)
      ensures Minute(at) > old(start) ==>
                var (c, closed) := Close(Drain(old(View()), QUEUE), Minute(at));
                && View() == c && reports.Some?
                && Lists(Joined(reports.value), names, closed.accounts, metrics) && |reports.value| == Batches(|closed.accounts|)
                && (forall i :: 0 <= i < |reports.value| ==> IsBatch(reports.value[i], i, closed, metrics, |closed.accounts|))
                && Total(Joined(reports.value)) + closed.quality.dropped + closed.quality.unmapped == Reported(closed)
    {
      hide Works, Total, Joined, Lists, IsBatch, Minute;
      names := [];
      if Minute(at) <= start {
        DrainPending(QUEUE);
        return None, [];
      }
      DrainPending(QUEUE);
      hide Drain;
      DrainStart(old(View()), QUEUE);
      var closed := CloseWindow(Minute(at));
      var batches;
      batches, names := BuildReports(closed, metrics);
      reports := Some(batches);
    }

    /** The critical section of `Snapshot` after its drain. */
    method CloseWindow(end: int) returns (closed: Closed)
      modifies this`window, this`next, this`start, this`dropped, this`clockGap, this`drops
      ensures (View(), closed) == Close(old(View()), end)
    {
      hide NoWindow;
      if end - start == 60 {
        closed := Promote(end);
      } else {
        closed := Discard(end);
      }
      hide CloseOnTime, CloseLate;
    }

    method Promote(end: int) returns (closed: Closed)
      modifies this`window, this`next, this`start, this`dropped, this`clockGap, this`drops
      ensures (View(), closed) == CloseOnTime(old(View()), end)
    {
      hide NoWindow;
      var loss, gap := dropped, clockGap;
      closed := Closed(revision, start, end, Quality(window.partial || loss > 0, gap, loss + window.lost, window.unmapped), window.accounts);
      dropped, clockGap, start := 0, false, end;
      if next.Some? {
        window := next.value;
        next := None;
      } else {
        window := NoWindow();
      }
      window := window.(partial := window.partial || loss > 0 || gap);
    }

    method Discard(end: int) returns (closed: Closed)
      modifies this`window, this`next, this`start, this`dropped, this`clockGap, this`drops
      ensures (View(), closed) == CloseLate(old(View()), end)
    {
      var n := if next.Some? then next.value else NoWindow();
      assert n == NextOf(View());
      hide NoWindow, NextOf;
      var loss := dropped;
      var discarded := window.accepted + n.accepted;
      closed := Closed(revision, end - 60, end, Quality(true, true, loss + window.lost + n.lost + discarded, window.unmapped + n.unmapped), map[]);
      drops := drops.(discarded := drops.discarded + discarded);
      dropped, clockGap, start, next := 0, false, end, None;
      window := NoWindow().(partial := true);
    }
  }

  /** A binding applied at the next generation, or at the same one. */
  lemma BindBumped(c: Core, key: string, ref: AuthRef)
    requires Coherent(c) && !BindRefused(c, key)
    ensures var d := Apply(c, Bind(key, ref));
            && Apply(c.(generation := c.generation + 1), Bind(key, ref)) == d.(generation := c.generation + 1)
            && d.generation == c.generation && d.registry == c.registry && Coherent(d) && Coherent(d.(generation := c.generation + 2))
    ensures !(|c.bindings| >= BINDINGS && key !in c.bindings)
  {
    var d := Apply(c, Bind(key, ref));
    BindCoherent(c, key, ref);
    BindRoom(c, key);
    ApplyGeneration(c, Bind(key, ref), c.generation + 1);
    CoherentSame(d, d.(generation := c.generation + 2));
    hide Coherent, Apply;
  }

  /** Identity changes do not look at the generation. */
  lemma ApplyGeneration(c: Core, change: Change, n: nat)
    ensures Apply(c.(generation := n), change) == Apply(c, change).(generation := n)
    ensures Apply(c, change).generation == c.generation && Apply(c, change).registry == if change.Replace? then change.registry else c.registry
  {
    hide SubjectOf, Rebound;
    if change.UnbindTag? {
      assert Tagged(c.(generation := n), change.tag) == Tagged(c, change.tag);
    }
    hide Tagged;
  }

  /** Draining moves samples without gaining or losing one. */
  lemma {:induction false} DrainKeeps(c: Core, limit: nat)
    requires GoodCore(c)
    ensures GoodCore(Drain(c, limit)) && Held(Drain(c, limit)) == Held(c) && SameIdentity(c, Drain(c, limit))
    decreases limit
  {
    hide GoodCore, Held, Record;
    if limit > 0 && c.pending != [] {
      var d := c.(pending := c.pending[1..]);
      Dequeued(c);
      RecordKeeps(d, c.pending[0]);
      RecordHolds(d, c.pending[0]);
      DrainKeeps(Record(d, c.pending[0]), limit - 1);
    }
  }

  /** One call leaves exactly one more sample in what the observer holds, within all
      limits, and changes no identity. */
  lemma ObserveAdds(c: Core, key: string, value: string, port: nat, tcp: bool, outcome: nat, first: int, locked: bool, second: int)
    requires GoodCore(c) && Whole(first) && Whole(second)
    ensures var d := ObserveTo(c, key, value, port, tcp, outcome, first, locked, second);
            GoodCore(d) && Held(d) == Held(c) + 1 && SameIdentity(c, d)
  {
    hide GoodCore, Held, ObserveMinute, RecordTo, Whole;
    var b := c.(sequence := c.sequence + 1);
    var r := ObserveMinute(b, first, b.sequence);
    var e := Prepared(c, key, value, port, tcp, outcome, first);
    ObserveAlike(b, first, b.sequence);
    AlikeGood(c, r.0);
    if r.1 && locked {
      if |r.0.pending| < QUEUE { Enqueued(r.0, e); } else { AlikeGood(r.0, EnqueueTo(r.0, e)); }
    } else if r.1 {
      RecordAdds(r.0, e, second);
    }
  }

  lemma RecordAdds(c: Core, e: Event, minute: int)
    requires GoodCore(c) && Whole(minute)
    ensures GoodCore(RecordTo(c, e, minute)) && Held(RecordTo(c, e, minute)) == Held(c) + 1 && SameIdentity(c, RecordTo(c, e, minute))
  {
    hide GoodCore, Held, ObserveMinute, Record, Drain, Whole;
    DrainKeeps(c, BUDGET);
    var d := Drain(c, BUDGET);
    var b := d.(sequence := d.sequence + 1);
    var r := ObserveMinute(b, minute, b.sequence);
    ObserveAlike(b, minute, b.sequence);
    AlikeGood(d, r.0);
    if r.1 {
      RecordKeeps(r.0, Restamped(e, minute));
      RecordHolds(r.0, Restamped(e, minute));
    }
  }

  /** Draining does not move the window. */
  lemma {:induction false} DrainStart(c: Core, limit: nat)
    ensures Drain(c, limit).start == c.start && Drain(c, limit).metrics == c.metrics
    decreases limit
  {
    hide RecordIn;
    if limit > 0 && c.pending != [] { DrainStart(Record(c.(pending := c.pending[1..]), c.pending[0]), limit - 1); }
  }
}
