/** What the counters of a minute were counted from: every account of the observer,
    open or reported, is exactly what the samples that touched it say
    (common/beupobserve: observer.go and tcp_outcomes.go). */
module Evidence {
  import opened Counters
  import opened Windows
  import opened Observation
  import opened Reports

  /** A sample that reached an account, under the credential its key had then. It is
      counted, or lost for want of room; either way it touches the account. */
  datatype Touch = Touch(subject: string, credential: string, event: Event, counted: bool)

  /** What can be counted. */
  datatype Kind = Requests | Tcp | Udp | RequestsTo(target: Target) | Dials | Outcome(code: nat) | RefusalsAt(target: Target)

  predicate Is(t: Touch, kind: Kind) {
    t.counted &&
    match kind
    case Requests => t.event.outcome == 0
    case Tcp => t.event.outcome == 0 && t.event.tcp
    case Udp => t.event.outcome == 0 && !t.event.tcp
    case RequestsTo(x) => t.event.outcome == 0 && t.event.target == x
    case Dials => t.event.outcome != 0
    case Outcome(code) => t.event.outcome == code
    case RefusalsAt(x) => t.event.outcome == 2 && t.event.target == x
  }

  /** How many there are. */
  function Number(ts: seq<Touch>, kind: Kind): nat {
    if ts == [] then 0 else Number(ts[..|ts| - 1], kind) + (if Is(ts[|ts| - 1], kind) then 1 else 0)
  }

  /** The ports they went to. */
  function PortsOf(ts: seq<Touch>, kind: Kind): set<nat> {
    if ts == [] then {} else PortsOf(ts[..|ts| - 1], kind) + (if Is(ts[|ts| - 1], kind) then {ts[|ts| - 1].event.port} else {})
  }

  /** The touches of one subject. */
  function Of(ts: seq<Touch>, subject: string): seq<Touch> {
    if ts == [] then [] else Of(ts[..|ts| - 1], subject) + (if ts[|ts| - 1].subject == subject then [ts[|ts| - 1]] else [])
  }

  predicate SameCredential(ts: seq<Touch>, credential: string) { forall i :: 0 <= i < |ts| ==> ts[i].credential == credential }

  // ---- one account ---------------------------------------------------------------------

  ghost predicate RequestsAre(a: Account, ts: seq<Touch>) {
    && a.requests == Number(ts, Requests) && a.tcp == Number(ts, Tcp) && a.udp == Number(ts, Udp) && a.ports == PortsOf(ts, Requests)
    && forall x :: Hits(a, x) == Number(ts, RequestsTo(x)) && (x in a.targets <==> Number(ts, RequestsTo(x)) > 0)
  }

  ghost predicate OutcomesAre(d: Dial, ts: seq<Touch>) {
    && d.attempts == Number(ts, Dials) && d.succeeded == Number(ts, Outcome(1)) && d.refused == Number(ts, Outcome(2))
    && d.timedOut == Number(ts, Outcome(3)) && d.cancelled == Number(ts, Outcome(4)) && d.otherErrors == Number(ts, Outcome(5))
  }

  ghost predicate RefusalsAre(m: map<Target, DialTarget>, ts: seq<Touch>) {
    forall x :: (x in m <==> Number(ts, RefusalsAt(x)) > 0)
                && (x in m ==> m[x].attempts == Number(ts, RefusalsAt(x)) && m[x].ports == PortsOf(ts, RefusalsAt(x)))
  }

  /** Dial evidence exists only with dial metrics; it names a credential, and is complete,
      exactly when every sample that touched the account came under that one. */
  ghost predicate CreditIs(a: Account, ts: seq<Touch>, metrics: bool) {
    if !metrics || ts == [] then a.dial.None?
    else
      && a.dial.Some?
      && if SameCredential(ts, ts[0].credential) then a.dial.value.credential == ts[0].credential && a.dial.value.isComplete == (ts[0].credential != "")
         else a.dial.value.credential == "" && !a.dial.value.isComplete
  }

  /** The account is what these touches say. */
  ghost predicate Reflects(a: Account, ts: seq<Touch>, metrics: bool) {
    RequestsAre(a, ts) && OutcomesAre(DialOf(a), ts) && RefusalsAre(a.dialTargets, ts) && CreditIs(a, ts, metrics)
  }

  lemma EmptyReflects(metrics: bool)
    ensures Reflects(Empty(), [], metrics)
  {
    EmptyIsBlank();
    hide RequestsAre, OutcomesAre, RefusalsAre, CreditIs, Empty;
    BlankReflects(Empty(), [], metrics);
  }

  lemma EmptyIsBlank()
    ensures var a := Empty();
            a.requests == 0 && a.tcp == 0 && a.udp == 0 && a.targets == map[] && a.ports == {} && a.dial.None? && a.dialTargets == map[]
  {
  }

  lemma BlankReflects(a: Account, ts: seq<Touch>, metrics: bool)
    requires a.requests == 0 && a.tcp == 0 && a.udp == 0 && a.targets == map[] && a.ports == {} && a.dial.None? && a.dialTargets == map[] && ts == []
    ensures Reflects(a, ts, metrics)
  {
    hide Number, PortsOf;
    NoneCounted();
  }

  lemma NoneCounted()
    ensures forall kind :: Number([], kind) == 0 && PortsOf([], kind) == {}
  {
  }

  lemma NumberOn(ts: seq<Touch>, t: Touch, kind: Kind)
    ensures Number(ts + [t], kind) == Number(ts, kind) + (if Is(t, kind) then 1 else 0)
    ensures PortsOf(ts + [t], kind) == PortsOf(ts, kind) + (if Is(t, kind) then {t.event.port} else {})
  {
    assert (ts + [t])[..|ts|] == ts;
  }

  lemma CreditedIs(a: Account, ts: seq<Touch>, t: Touch)
    requires CreditIs(a, ts, true)
    ensures CreditIs(Credited(a, t.credential), ts + [t], true)
  {
    var us := ts + [t];
    assert us[|ts|] == t && forall i :: 0 <= i < |ts| ==> us[i] == ts[i];
    if ts != [] {
      assert SameCredential(us, us[0].credential) <==> SameCredential(ts, ts[0].credential) && t.credential == ts[0].credential by {
        if SameCredential(us, us[0].credential) {
          forall i | 0 <= i < |ts| ensures ts[i].credential == ts[0].credential { assert us[i].credential == us[0].credential; }
          assert us[|ts|].credential == us[0].credential;
        }
      }
    }
  }

  /** Crediting leaves the counters alone. */
  lemma CreditedSame(a: Account, credential: string)
    ensures var b := Credited(a, credential);
            && b == a.(dial := b.dial)
            && var d, f := DialOf(a), DialOf(b); d == f.(credential := d.credential, isComplete := d.isComplete)
  {
  }

  lemma RequestReflects(a: Account, ts: seq<Touch>, t: Touch)
    requires RequestsAre(a, ts) && t.counted && t.event.outcome == 0
    ensures RequestsAre(AddRequest(a, t.event.target, t.event.port, t.event.tcp), ts + [t])
  {
    hide Number, PortsOf;
    NumberOn(ts, t, Requests);
    NumberOn(ts, t, Tcp);
    NumberOn(ts, t, Udp);
    var b := AddRequest(a, t.event.target, t.event.port, t.event.tcp);
    forall x ensures Hits(b, x) == Number(ts + [t], RequestsTo(x)) && (x in b.targets <==> Number(ts + [t], RequestsTo(x)) > 0) {
      NumberOn(ts, t, RequestsTo(x));
    }
  }

  /** A dial leaves the requests alone, and a request the dials. */
  lemma OtherRequests(a: Account, b: Account, ts: seq<Touch>, t: Touch)
    requires RequestsAre(a, ts) && (!t.counted || t.event.outcome != 0)
    requires b.requests == a.requests && b.tcp == a.tcp && b.udp == a.udp && b.ports == a.ports && b.targets == a.targets
    ensures RequestsAre(b, ts + [t])
  {
    hide Number, PortsOf;
    NumberOn(ts, t, Requests);
    NumberOn(ts, t, Tcp);
    NumberOn(ts, t, Udp);
    forall x ensures Hits(b, x) == Number(ts + [t], RequestsTo(x)) && (x in b.targets <==> Number(ts + [t], RequestsTo(x)) > 0) {
      NumberOn(ts, t, RequestsTo(x));
    }
  }

  lemma OutcomeReflects(d: Dial, ts: seq<Touch>, t: Touch)
    requires OutcomesAre(d, ts) && t.counted && 1 <= t.event.outcome <= 5
    ensures OutcomesAre(Tally(d, t.event.outcome), ts + [t])
  {
    hide Number;
    NumberOn(ts, t, Dials);
    NumberOn(ts, t, Outcome(1));
    NumberOn(ts, t, Outcome(2));
    NumberOn(ts, t, Outcome(3));
    NumberOn(ts, t, Outcome(4));
    NumberOn(ts, t, Outcome(5));
  }

  lemma OtherOutcomes(d: Dial, ts: seq<Touch>, t: Touch)
    requires OutcomesAre(d, ts) && (!t.counted || t.event.outcome == 0)
    ensures OutcomesAre(d, ts + [t])
  {
    hide Number, PortsOf;
    NumberOn(ts, t, Dials);
    NumberOn(ts, t, Outcome(1));
    NumberOn(ts, t, Outcome(2));
    NumberOn(ts, t, Outcome(3));
    NumberOn(ts, t, Outcome(4));
    NumberOn(ts, t, Outcome(5));
  }

  lemma RefusalReflects(a: Account, ts: seq<Touch>, t: Touch)
    requires RefusalsAre(a.dialTargets, ts) && t.counted && t.event.outcome == 2
    ensures RefusalsAre(a.dialTargets[t.event.target := Touched(a, t.event.target, t.event.port)], ts + [t])
  {
    hide Number, PortsOf;
    var m := a.dialTargets[t.event.target := Touched(a, t.event.target, t.event.port)];
    NoPorts(ts, RefusalsAt(t.event.target));
    forall x
      ensures x in m <==> Number(ts + [t], RefusalsAt(x)) > 0
      ensures x in m ==> m[x].attempts == Number(ts + [t], RefusalsAt(x)) && m[x].ports == PortsOf(ts + [t], RefusalsAt(x))
    {
      NumberOn(ts, t, RefusalsAt(x));
    }
  }

  lemma {:induction false} NoPorts(ts: seq<Touch>, kind: Kind)
    ensures Number(ts, kind) == 0 ==> PortsOf(ts, kind) == {}
  {
    if ts != [] { NoPorts(ts[..|ts| - 1], kind); }
  }

  lemma OtherRefusals(m: map<Target, DialTarget>, ts: seq<Touch>, t: Touch)
    requires RefusalsAre(m, ts) && (!t.counted || t.event.outcome != 2)
    ensures RefusalsAre(m, ts + [t])
  {
    hide Number, PortsOf;
    forall x
      ensures x in m <==> Number(ts + [t], RefusalsAt(x)) > 0
      ensures x in m ==> m[x].attempts == Number(ts + [t], RefusalsAt(x)) && m[x].ports == PortsOf(ts + [t], RefusalsAt(x))
    {
      NumberOn(ts, t, RefusalsAt(x));
    }
  }

  /** The counters after an event, before and after which the credit is settled. */
  ghost predicate CountersAre(a: Account, ts: seq<Touch>) {
    RequestsAre(a, ts) && OutcomesAre(DialOf(a), ts) && RefusalsAre(a.dialTargets, ts)
  }

  lemma BookedCounters(a: Account, ts: seq<Touch>, t: Touch, metrics: bool, edges: nat)
    requires CountersAre(a, ts) && t.counted == (Booked(a, t.event, metrics, edges).2 == Counted)
    ensures CountersAre(Booked(a, t.event, metrics, edges).0, ts + [t])
  {
    var e := t.event;
    var b := Booked(a, e, metrics, edges).0;
    hide RequestsAre, OutcomesAre, RefusalsAre;
    if !t.counted {
      OtherRequests(a, a, ts, t);
      OtherOutcomes(DialOf(a), ts, t);
      OtherRefusals(a.dialTargets, ts, t);
    } else if e.outcome == 0 {
      RequestReflects(a, ts, t);
      OtherOutcomes(DialOf(a), ts, t);
      OtherRefusals(a.dialTargets, ts, t);
    } else {
      OtherRequests(a, b, ts, t);
      if e.outcome == 2 {
        RefusalReflects(a, ts, t);
        RaisedOutcomes(DialOf(a), Touched(a, e.target, e.port), ts);
        OutcomeReflects(Raise(DialOf(a), Touched(a, e.target, e.port)), ts, t);
      } else {
        OtherRefusals(a.dialTargets, ts, t);
        OutcomeReflects(DialOf(a), ts, t);
      }
    }
  }

  lemma RaisedOutcomes(d: Dial, t: DialTarget, ts: seq<Touch>)
    requires OutcomesAre(d, ts)
    ensures OutcomesAre(Raise(d, t), ts)
  {
  }

  /** Booking does not change what is credited. */
  lemma BookedCredit(a: Account, e: Event, metrics: bool, edges: nat)
    requires metrics ==> a.dial.Some?
    ensures var b := Booked(a, e, metrics, edges).0;
            && b.dial.Some? == a.dial.Some?
            && (a.dial.Some? ==> b.dial.value.credential == a.dial.value.credential && b.dial.value.isComplete == a.dial.value.isComplete)
  {
    hide DialFull, RequestFull, DialDelta, RequestDelta, Touched, Exceeds;
  }

  lemma CreditCopies(a: Account, b: Account, ts: seq<Touch>, metrics: bool)
    requires CreditIs(a, ts, metrics) && b.dial.Some? == a.dial.Some?
    requires a.dial.Some? ==> b.dial.value.credential == a.dial.value.credential && b.dial.value.isComplete == a.dial.value.isComplete
    ensures CreditIs(b, ts, metrics)
  {
  }

  lemma CountersCopy(a: Account, b: Account, ts: seq<Touch>)
    requires CountersAre(a, ts) && b == a.(dial := b.dial)
    requires var d, f := DialOf(a), DialOf(b); d == f.(credential := d.credential, isComplete := d.isComplete)
    ensures CountersAre(b, ts)
  {
    hide Number, PortsOf;
  }

  /** One more touch. */
  lemma TouchReflects(a: Account, ts: seq<Touch>, t: Touch, metrics: bool, edges: nat)
    requires Reflects(a, ts, metrics)
    requires t.counted == (Booked(if metrics then Credited(a, t.credential) else a, t.event, metrics, edges).2 == Counted)
    ensures Reflects(Booked(if metrics then Credited(a, t.credential) else a, t.event, metrics, edges).0, ts + [t], metrics)
  {
    var b := if metrics then Credited(a, t.credential) else a;
    var c := Booked(b, t.event, metrics, edges).0;
    assert CountersAre(a, ts);
    CreditedSame(a, t.credential);
    if metrics { CreditedIs(a, ts, t); }
    assert CreditIs(b, ts + [t], metrics);
    assert metrics ==> b.dial.Some?;
    BookedCredit(b, t.event, metrics, edges);
    hide Booked, Credited;
    CreditCopies(b, c, ts + [t], metrics);
    hide CreditIs;
    CountersCopy(a, b, ts);
    hide RequestsAre, OutcomesAre, RefusalsAre;
    BookedCounters(b, ts, t, metrics, edges);
  }

  // ---- one window ----------------------------------------------------------------------

  /** Every account is what the touches of its subject say, and every subject that was
      touched has one. */
  ghost predicate BuiltFrom(accounts: map<string, Account>, ts: seq<Touch>, metrics: bool) {
    forall x :: if x in accounts then Of(ts, x) != [] && Reflects(accounts[x], Of(ts, x), metrics) else Of(ts, x) == []
  }

  lemma OfOn(ts: seq<Touch>, t: Touch, x: string)
    ensures Of(ts + [t], x) == if t.subject == x then Of(ts, x) + [t] else Of(ts, x)
  {
    assert (ts + [t])[..|ts|] == ts;
  }

  lemma NothingBuilt(metrics: bool)
    ensures BuiltFrom(map[], [], metrics)
  {
  }

  /** What an event of a bound key does to the trail of a window. */
  function TouchOf(c: Core, w: Window, e: Event): seq<Touch> {
    if e.key !in c.bindings || (c.bindings[e.key] !in w.accounts && Slots(c) >= ACCOUNTS) then []
    else [Touch(c.bindings[e.key], CredentialOf(c, e.key), e, RecordIn(c, w, e).1 == Counted)]
  }

  lemma RecordBuilds(c: Core, w: Window, e: Event, ts: seq<Touch>)
    requires BuiltFrom(w.accounts, ts, c.metrics)
    ensures BuiltFrom(RecordIn(c, w, e).0.accounts, ts + TouchOf(c, w, e), c.metrics)
  {
    hide Reflects, Booked, Credited, Of, Slots, Edges;
    var v, more := RecordIn(c, w, e).0, TouchOf(c, w, e);
    if more == [] {
      assert ts + more == ts && v.accounts == w.accounts;
    } else {
      var t := more[0];
      var a := if t.subject in w.accounts then w.accounts[t.subject] else Empty();
      EmptyReflects(c.metrics);
      assert Of(ts, t.subject) == [] <==> t.subject !in w.accounts;
      assert Reflects(a, Of(ts, t.subject), c.metrics);
      TouchReflects(a, Of(ts, t.subject), t, c.metrics, Edges(c));
      assert ts + more == ts + [t];
      forall x ensures if x in v.accounts then Of(ts + [t], x) != [] && Reflects(v.accounts[x], Of(ts + [t], x), c.metrics) else Of(ts + [t], x) == [] {
        OfOn(ts, t, x);
      }
    }
  }

  // ---- the system ------------------------------------------------------------------------

  /** The touches of the open window, of the lookahead, and of every report. */
  datatype Trail = Trail(now: seq<Touch>, soon: seq<Touch>, archive: seq<seq<Touch>>)

  /** An event is recorded. */
  function Noted(tr: Trail, c: Core, e: Event): Trail {
    if Stale(c, e) || Outside(c, e) then tr
    else if e.minute == c.start + 60 then tr.(soon := tr.soon + TouchOf(c, NextOf(c), e))
    else tr.(now := tr.now + TouchOf(c, c.window, e))
  }

  /** The trail after a step: records add to it, a report takes the open window's part,
      and what is discarded leaves it. */
  function Follow(s: Sys, tr: Trail, step: Step): Trail {
    match step
    case DrainOne => if MayDrain(s.lock) && s.core.pending != [] then Noted(tr, s.core.(pending := s.core.pending[1..]), s.core.pending[0]) else tr
    case Finish =>
      if !s.lock.Recording? || !s.lock.again.Shown? then tr
      else
        var r := ObserveMinute(s.core, s.lock.again.minute, s.lock.again.sequence);
        if r.1 then Noted(tr, r.0, Restamped(s.lock.event, s.lock.again.minute)) else tr
    case EndDrain =>
      if !s.lock.Draining? || (s.lock.left > 0 && s.core.pending != []) || s.lock.closing.None? then tr
      else if s.lock.closing.value == s.core.start + 60 then Trail(tr.soon, [], tr.archive + [tr.now])
      else Trail([], [], tr.archive + [[]])
    case Advance => if s.lock.Changing? && Wholesale(s.lock.change) && s.lock.phase == 2 then Trail([], [], tr.archive) else tr
    case _ => tr
  }

  function TrailOf(s: Sys, tr: Trail, steps: seq<Step>): Trail
    decreases |steps|
  {
    if steps == [] then tr else TrailOf(Next(s, steps[0]), Follow(s, tr, steps[0]), steps[1..])
  }

  /** Samples of this minute, each counted one on the log. */
  ghost predicate Dated(ts: seq<Touch>, minute: int, log: seq<Entry>) {
    forall i :: 0 <= i < |ts| ==> ts[i].event.minute == minute && (ts[i].counted ==> Logged(ts[i], log))
  }

  ghost predicate Logged(t: Touch, log: seq<Entry>) { exists k :: 0 <= k < |log| && log[k].subject == t.subject && log[k].minute == t.event.minute && log[k].event == t.event }

  ghost predicate Open(c: Core, tr: Trail, log: seq<Entry>) {
    && BuiltFrom(c.window.accounts, tr.now, c.metrics) && BuiltFrom(NextOf(c).accounts, tr.soon, c.metrics)
    && Dated(tr.now, c.start, log) && Dated(tr.soon, c.start + 60, log)
  }

  ghost predicate Told(closed: seq<Closed>, archive: seq<seq<Touch>>, metrics: bool, log: seq<Entry>) {
    && |archive| == |closed|
    && forall i :: 0 <= i < |closed| ==>
         BuiltFrom(closed[i].accounts, archive[i], metrics) && Dated(archive[i], closed[i].start, log) && AllGood(closed[i].accounts, closed[i].start)
  }

  ghost predicate AllGood(accounts: map<string, Account>, minute: int) { forall x :: x in accounts ==> GoodAccount(accounts[x], minute) }

  ghost predicate Kept(s: Sys, tr: Trail) { Open(s.core, tr, s.log) && Told(s.closed, tr.archive, s.core.metrics, s.log) }

  lemma LoggedOn(t: Touch, log: seq<Entry>, more: seq<Entry>)
    requires Logged(t, log)
    ensures Logged(t, log + more)
  {
    var k :| 0 <= k < |log| && log[k].subject == t.subject && log[k].minute == t.event.minute && log[k].event == t.event;
    assert (log + more)[k] == log[k];
  }

  lemma DatedOn(ts: seq<Touch>, minute: int, log: seq<Entry>, more: seq<Entry>)
    requires Dated(ts, minute, log)
    ensures Dated(ts, minute, log + more)
  {
    hide Logged;
    forall i | 0 <= i < |ts| && ts[i].counted ensures Logged(ts[i], log + more) { LoggedOn(ts[i], log, more); }
  }

  lemma ToldOn(closed: seq<Closed>, archive: seq<seq<Touch>>, metrics: bool, log: seq<Entry>, more: seq<Entry>)
    requires Told(closed, archive, metrics, log)
    ensures Told(closed, archive, metrics, log + more)
  {
    hide Dated, BuiltFrom, AllGood;
    forall i | 0 <= i < |closed| ensures Dated(archive[i], closed[i].start, log + more) { DatedOn(archive[i], closed[i].start, log, more); }
  }

  /** The new touch is on the log if it is counted. */
  lemma TouchLogged(c: Core, e: Event, again: Option<int>, log: seq<Entry>)
    requires !Stale(c, e) && !Outside(c, e) && (e.minute == c.start || e.minute == c.start + 60)
    ensures Dated(TouchOf(c, if e.minute == c.start + 60 then NextOf(c) else c.window, e), e.minute, log + Counts(c, e, again))
  {
    hide RecordIn, Slots;
    var w := if e.minute == c.start + 60 then NextOf(c) else c.window;
    var ts, more := TouchOf(c, w, e), Counts(c, e, again);
    if ts != [] && ts[0].counted {
      assert |more| == 1;
      assert (log + more)[|log|] == more[0];
      assert Logged(ts[0], log + more);
    }
  }

  lemma DatedJoin(a: seq<Touch>, b: seq<Touch>, minute: int, log: seq<Entry>)
    requires Dated(a, minute, log) && Dated(b, minute, log)
    ensures Dated(a + b, minute, log)
  {
    hide Logged;
  }

  lemma RecordKept(s: Sys, tr: Trail, e: Event, again: Option<int>)
    requires Kept(s, tr) && Whole(s.core.start) && Whole(e.minute)
    ensures Kept(RecordSys(s, e, again), Noted(tr, s.core, e))
  {
    hide BuiltFrom, Dated, RecordIn, TouchOf, Told;
    var c, more := s.core, Counts(s.core, e, again);
    DatedOn(tr.now, c.start, s.log, more);
    DatedOn(tr.soon, c.start + 60, s.log, more);
    ToldOn(s.closed, tr.archive, c.metrics, s.log, more);
    if !Stale(c, e) && !Outside(c, e) {
      Placed(c, e);
      TouchLogged(c, e, again, s.log);
      if e.minute == c.start + 60 {
        RecordBuilds(c, NextOf(c), e, tr.soon);
        DatedJoin(tr.soon, TouchOf(c, NextOf(c), e), e.minute, s.log + more);
      } else {
        RecordBuilds(c, c.window, e, tr.now);
        DatedJoin(tr.now, TouchOf(c, c.window, e), e.minute, s.log + more);
      }
    }
    hide Stale, Outside, Counts;
  }

  /** Nothing the trail is about changes. */
  lemma SameKept(s: Sys, t: Sys, tr: Trail)
    requires Kept(s, tr) && t.log == s.log && t.closed == s.closed && t.core.metrics == s.core.metrics
    requires t.core.window.accounts == s.core.window.accounts && NextOf(t.core).accounts == NextOf(s.core).accounts && t.core.start == s.core.start
    ensures Kept(t, tr)
  {
    hide BuiltFrom, Dated, AllGood;
  }

  lemma DrainKept(s: Sys, tr: Trail)
    requires Kept(s, tr) && Sound(s)
    ensures Kept(Next(s, DrainOne), Follow(s, tr, DrainOne))
  {
    WholeStart(s);
    hide Sound, Kept, Record, Counts, Noted;
    if MayDrain(s.lock) && s.core.pending != [] {
      PoppedKept(s, tr);
      assert Whole(s.core.pending[0].minute);
      RecordKept(Popped(s), tr, s.core.pending[0], None);
      assert Next(s, DrainOne) == RecordSys(Popped(s), s.core.pending[0], None);
    }
  }

  lemma PoppedKept(s: Sys, tr: Trail)
    requires Kept(s, tr) && MayDrain(s.lock) && s.core.pending != []
    ensures Kept(Popped(s), tr) && Popped(s).core == s.core.(pending := s.core.pending[1..])
  {
    hide Open, Told;
    SameKept(s, Popped(s), tr);
  }

  lemma FinishKept(s: Sys, tr: Trail)
    requires Kept(s, tr) && Sound(s)
    ensures Kept(FinishTo(s), Follow(s, tr, Finish))
  {
    WholeStart(s);
    hide Sound, Record, Counts, Noted, ObserveMinute, Backwards, Kept;
    if s.lock.Recording? && s.lock.again.Shown? {
      ObservedSame(s.core, s.lock.again.minute, s.lock.again.sequence);
      SameKept(s, Judged(s), tr);
      RecordKept(Judged(s), tr, Restamped(s.lock.event, s.lock.again.minute), Some(s.lock.again.minute));
    }
  }

  lemma ObservedSame(c: Core, minute: int, sequence: nat)
    ensures var d := ObserveMinute(c, minute, sequence).0;
            d.window == c.window && d.next == c.next && d.start == c.start && d.metrics == c.metrics
  {
  }

  lemma OpenGood(s: Sys)
    requires Sound(s)
    ensures AllGood(s.core.window.accounts, s.core.start)
  {
    hide GoodAccount, Works, TrueEdges, Conserved;
  }

  lemma ClosedKept(s: Sys, tr: Trail)
    requires Kept(s, tr) && Sound(s)
    ensures Kept(EndDrainTo(s), Follow(s, tr, EndDrain))
  {
    OpenGood(s);
    hide Sound;
    if s.lock.Draining? && !(s.lock.left > 0 && s.core.pending != []) && s.lock.closing.Some? {
      var r := Close(s.core, s.lock.closing.value);
      CloseBuilds(s.core, tr, s.lock.closing.value, s.log);
      hide Close, Open, BuiltFrom, Dated, AllGood;
      ToldMore(s.closed, tr.archive, s.core.metrics, s.log, r.1, if s.lock.closing.value == s.core.start + 60 then tr.now else []);
    } else {
      hide Open, Told;
      SameKept(s, EndDrainTo(s), tr);
    }
  }

  lemma CloseBuilds(c: Core, tr: Trail, end: int, log: seq<Entry>)
    requires Open(c, tr, log) && AllGood(c.window.accounts, c.start)
    ensures var r, ts := Close(c, end), if end == c.start + 60 then tr.now else [];
            && Open(r.0, if end == c.start + 60 then Trail(tr.soon, [], tr.archive + [ts]) else Trail([], [], tr.archive + [ts]), log)
            && BuiltFrom(r.1.accounts, ts, c.metrics) && Dated(ts, r.1.start, log) && AllGood(r.1.accounts, r.1.start) && r.0.metrics == c.metrics
  {
    hide BuiltFrom, Dated, GoodAccount;
    NothingBuilt(c.metrics);
    NothingDated();
    assert NoWindow().accounts == map[];
  }

  lemma ToldMore(closed: seq<Closed>, archive: seq<seq<Touch>>, metrics: bool, log: seq<Entry>, r: Closed, ts: seq<Touch>)
    requires Told(closed, archive, metrics, log) && BuiltFrom(r.accounts, ts, metrics) && Dated(ts, r.start, log) && AllGood(r.accounts, r.start)
    ensures Told(closed + [r], archive + [ts], metrics, log)
  {
    hide BuiltFrom, Dated, AllGood;
  }

  lemma NothingDated()
    ensures forall minute, log :: Dated([], minute, log)
  {
  }

  lemma AdvanceKept(s: Sys, tr: Trail)
    requires Kept(s, tr)
    ensures Kept(AdvanceTo(s), Follow(s, tr, Advance))
  {
    if s.lock.Changing? {
      AdvancedWindows(s.core, s.lock.change, s.lock.phase);
      NothingBuilt(s.core.metrics);
      NothingDated();
      hide BuiltFrom, Dated, AllGood, AdvanceCore, AdvanceLock;
    }
  }

  lemma AdvancedWindows(c: Core, change: Change, phase: nat)
    ensures var d := AdvanceCore(c, change, phase);
            && d.start == c.start && d.metrics == c.metrics
            && if Wholesale(change) && phase == 2 then d.window.accounts == map[] && NextOf(d).accounts == map[]
               else d.window.accounts == c.window.accounts && NextOf(d).accounts == NextOf(c).accounts
  {
    AppliedWindows(c, change);
    ResetEmpties(c);
    AdvanceIs(c, change, phase);
    hide Apply, Reset, AdvanceCore, Wholesale;
  }

  lemma AdvanceIs(c: Core, change: Change, phase: nat)
    ensures var d := AdvanceCore(c, change, phase);
            if Wholesale(change) && phase == 2 then d == Reset(c) else d == c || d == Bump(c) || d == Apply(c, change)
  {
    hide Apply, Reset, Bump, BindRefused, SameRef;
  }

  lemma ResetEmpties(c: Core)
    ensures var d := Reset(c);
            d.start == c.start && d.metrics == c.metrics && d.window.accounts == map[] && NextOf(d).accounts == map[]
  {
  }

  lemma AppliedWindows(c: Core, change: Change)
    ensures var d := Apply(c, change);
            d.window == c.window && d.next == c.next && d.start == c.start && d.metrics == c.metrics
  {
    hide Rebound, SubjectOf, Tagged;
  }

  lemma OtherKept(s: Sys, tr: Trail, step: Step)
    requires Kept(s, tr) && !step.DrainOne? && !step.Finish? && !step.EndDrain? && !step.Advance?
    ensures Kept(Next(s, step), tr)
  {
    LogKept(s, step);
    OtherWindows(s, step);
    hide Next, Kept;
    SameKept(s, Next(s, step), tr);
  }

  lemma OtherWindows(s: Sys, step: Step)
    requires !step.DrainOne? && !step.Finish? && !step.EndDrain? && !step.Advance?
    ensures var t := Next(s, step);
            && t.core.window == s.core.window && t.core.next == s.core.next && t.core.start == s.core.start && t.core.metrics == s.core.metrics && t.closed == s.closed
  {
    if step.Check? { ObservedSame(s.core, step.flying.event.minute, step.flying.sequence); }
    hide ObserveMinute, Stamp, Backwards, Minute, Unread;
  }

  lemma StepKept(s: Sys, tr: Trail, step: Step)
    requires Kept(s, tr) && Sound(s)
    ensures Kept(Next(s, step), Follow(s, tr, step))
  {
    hide Kept, Sound;
    match step
    case DrainOne => DrainKept(s, tr);
    case Finish => FinishKept(s, tr);
    case EndDrain => ClosedKept(s, tr);
    case Advance => AdvanceKept(s, tr);
    case _ => OtherKept(s, tr, step);
  }

  lemma {:induction false} RunKept(s: Sys, tr: Trail, steps: seq<Step>)
    requires Kept(s, tr) && Inv(s)
    ensures Kept(Run(s, steps), TrailOf(s, tr, steps))
    decreases |steps|
  {
    if steps != [] {
      StepKept(s, tr, steps[0]);
      StepKeeps(s, steps[0]);
      hide Kept, Inv, Next, Follow;
      RunKept(Next(s, steps[0]), Follow(s, tr, steps[0]), steps[1..]);
    }
  }

  const NoTrail := Trail([], [], [])

  /** Over every interleaving, every account, open or reported, is exactly what the
      samples that touched it in its minute say: each counter the number of counted
      samples of its kind, each set of ports theirs, and its credential the one they all
      came under. */
  lemma EvidenceExactly(registry: Registry, revision: string, metrics: bool, seconds: int, steps: seq<Step>)
    ensures var i := Initial(registry, revision, metrics, seconds);
            Kept(Run(i, steps), TrailOf(i, NoTrail, steps))
  {
    var i := Initial(registry, revision, metrics, seconds);
    InitialInv(registry, revision, metrics, seconds);
    InitialKept(registry, revision, metrics, seconds);
    hide Inv, Kept;
    RunKept(i, NoTrail, steps);
  }

  lemma InitialKept(registry: Registry, revision: string, metrics: bool, seconds: int)
    ensures Kept(Initial(registry, revision, metrics, seconds), NoTrail)
  {
    NothingBuilt(metrics);
    NothingDated();
    hide BuiltFrom, Dated, Minute;
  }

  // ---- what a report says --------------------------------------------------------------------

  /** The destinations of the counted requests. */
  function TargetsOf(ts: seq<Touch>): set<Target> {
    if ts == [] then {} else TargetsOf(ts[..|ts| - 1]) + (if Is(ts[|ts| - 1], Requests) then {ts[|ts| - 1].event.target} else {})
  }

  lemma {:induction false} TargetsCounted(ts: seq<Touch>, x: Target)
    ensures x in TargetsOf(ts) <==> Number(ts, RequestsTo(x)) > 0
  {
    if ts != [] { TargetsCounted(ts[..|ts| - 1], x); }
  }

  /** `n` is the greatest number of requests to one destination. */
  ghost predicate MostRequests(ts: seq<Touch>, n: nat) {
    (forall x :: Number(ts, RequestsTo(x)) <= n) && (n == 0 || exists x :: Number(ts, RequestsTo(x)) == n)
  }

  /** The pair belongs to one destination with the most refused ports, and among those
      with the most refusals; zero without any. */
  ghost predicate WorstRefusals(ts: seq<Touch>, ports: nat, attempts: nat) {
    && (forall x :: |PortsOf(ts, RefusalsAt(x))| <= ports && (|PortsOf(ts, RefusalsAt(x))| == ports ==> Number(ts, RefusalsAt(x)) <= attempts))
    && ((ports == 0 && attempts == 0) || exists x :: |PortsOf(ts, RefusalsAt(x))| == ports && Number(ts, RefusalsAt(x)) == attempts)
  }

  lemma MostIs(a: Account, ts: seq<Touch>, minute: int)
    requires RequestsAre(a, ts) && GoodRequests(a, minute)
    ensures MostRequests(ts, a.maxRequests)
  {
    hide Number, PortsOf;
    forall x ensures Number(ts, RequestsTo(x)) <= a.maxRequests { assert Hits(a, x) == Number(ts, RequestsTo(x)); }
    if a.maxRequests != 0 {
      var x :| x in a.targets && a.targets[x] == a.maxRequests;
      assert Hits(a, x) == Number(ts, RequestsTo(x));
    }
  }

  lemma WorstIs(a: Account, ts: seq<Touch>, minute: int)
    requires RefusalsAre(a.dialTargets, ts) && GoodDials(a, minute)
    ensures WorstRefusals(ts, DialOf(a).maxPorts, DialOf(a).maxAttempts)
  {
    hide Number, PortsOf, DialAttempts;
    var d := DialOf(a);
    forall x ensures |PortsOf(ts, RefusalsAt(x))| <= d.maxPorts && (|PortsOf(ts, RefusalsAt(x))| == d.maxPorts ==> Number(ts, RefusalsAt(x)) <= d.maxAttempts) {
      if x in a.dialTargets { assert !Exceeds(|a.dialTargets[x].ports|, a.dialTargets[x].attempts, d); } else { NoPorts(ts, RefusalsAt(x)); }
    }
    if !(d.maxPorts == 0 && d.maxAttempts == 0) {
      var x :| x in a.dialTargets && |a.dialTargets[x].ports| == d.maxPorts && a.dialTargets[x].attempts == d.maxAttempts;
      assert |PortsOf(ts, RefusalsAt(x))| == d.maxPorts;
    }
  }

  /** What the metrics of a subject say about the samples of its minute. */
  ghost predicate Says(m: Metrics, ts: seq<Touch>, dials: bool) {
    && m.requests == Number(ts, Requests) && m.tcp == Number(ts, Tcp) && m.udp == Number(ts, Udp)
    && m.distinctTargets == |TargetsOf(ts)| && m.distinctPorts == |PortsOf(ts, Requests)| && MostRequests(ts, m.maxRequests)
    && m.dial.Some? == dials
    && (dials ==>
          && OutcomesAre(m.dial.value, ts) && WorstRefusals(ts, m.dial.value.maxPorts, m.dial.value.maxAttempts)
          && (m.dial.value.isComplete <==> m.dial.value.credential != "" && ts != [] && SameCredential(ts, m.dial.value.credential))
          && (m.dial.value.credential != "" ==> m.dial.value.isComplete))
  }

  lemma SentSays(name: string, a: Account, ts: seq<Touch>, dials: bool, minute: int)
    requires Reflects(a, ts, dials) && GoodAccount(a, minute)
    ensures Says(Sent(name, a, dials).metrics, ts, dials)
  {
    MostIs(a, ts, minute);
    WorstIs(a, ts, minute);
    assert a.targets.Keys == TargetsOf(ts) by {
      forall x ensures x in a.targets <==> x in TargetsOf(ts) { TargetsCounted(ts, x); assert Hits(a, x) == Number(ts, RequestsTo(x)); }
    }
    assert |a.targets| == |a.targets.Keys|;
    hide Number, PortsOf, TargetsOf, MostRequests, WorstRefusals, GoodAccount, RefusalsAre;
    if ts != [] && dials {
      var d := a.dial.value;
      if SameCredential(ts, d.credential) && d.credential != "" { assert ts[0].credential == d.credential; }
    }
  }

  /** Every subject of every report, over every interleaving, says exactly what the
      samples of its minute were; in particular its dial part is complete and names a
      credential exactly when they all came under that one. */
  lemma ReportsExactly(registry: Registry, revision: string, metrics: bool, seconds: int, steps: seq<Step>, i: nat, x: string)
    requires i < |Run(Initial(registry, revision, metrics, seconds), steps).closed|
    requires x in Run(Initial(registry, revision, metrics, seconds), steps).closed[i].accounts
    ensures var s, tr := Run(Initial(registry, revision, metrics, seconds), steps), TrailOf(Initial(registry, revision, metrics, seconds), NoTrail, steps);
            && |tr.archive| == |s.closed| && Dated(tr.archive[i], s.closed[i].start, s.log)
            && Says(Sent(x, s.closed[i].accounts[x], metrics).metrics, Of(tr.archive[i], x), metrics)
  {
    var b := Initial(registry, revision, metrics, seconds);
    EvidenceExactly(registry, revision, metrics, seconds, steps);
    MetricsStay(b, steps);
    assert b.core.metrics == metrics;
    var s, tr := Run(b, steps), TrailOf(b, NoTrail, steps);
    hide Run, TrailOf, Initial, Reflects, Dated, Of, GoodAccount, Says;
    assert s.core.metrics == metrics;
    SentSays(x, s.closed[i].accounts[x], Of(tr.archive[i], x), metrics, s.closed[i].start);
  }

  lemma RecordMetrics(c: Core, e: Event)
    ensures Record(c, e).metrics == c.metrics
  {
    hide RecordIn, Overflowed, Stale, Outside;
  }

  lemma StepMetrics(s: Sys, step: Step)
    ensures Next(s, step).core.metrics == s.core.metrics
  {
    if !step.DrainOne? && !step.Finish? && !step.EndDrain? && !step.Advance? { OtherWindows(s, step); }
    if step.Advance? && s.lock.Changing? { AdvancedWindows(s.core, s.lock.change, s.lock.phase); }
    if step.Finish? && s.lock.Recording? && s.lock.again.Shown? {
      ObservedSame(s.core, s.lock.again.minute, s.lock.again.sequence);
      RecordMetrics(ObserveMinute(s.core, s.lock.again.minute, s.lock.again.sequence).0, Restamped(s.lock.event, s.lock.again.minute));
    }
    if step.DrainOne? && s.core.pending != [] { RecordMetrics(s.core.(pending := s.core.pending[1..]), s.core.pending[0]); }
    hide ObserveMinute, AdvanceCore, AdvanceLock, Counts, Backwards, Record;
    if !step.DrainOne? && !step.Finish? && !step.EndDrain? && !step.Advance? { hide Next; }
  }

  lemma {:induction false} MetricsStay(s: Sys, steps: seq<Step>)
    ensures Run(s, steps).core.metrics == s.core.metrics
    decreases |steps|
  {
    if steps != [] {
      StepMetrics(s, steps[0]);
      hide Next;
      MetricsStay(Next(s, steps[0]), steps[1..]);
    }
  }

  /** Two samples under different credentials: the report names none. */
  lemma TwoCredentials(m: Metrics, ts: seq<Touch>, i: nat, k: nat)
    requires Says(m, ts, true) && i < |ts| && k < |ts| && ts[i].credential != ts[k].credential
    ensures m.dial.value.credential == "" && !m.dial.value.isComplete
  {
    hide Number, PortsOf, MostRequests, WorstRefusals, OutcomesAre;
  }
}
