/** Clock readings in the observer (common/beupobserve/observer.go): when a sample
    changes its minute, and when a reading is taken for a reversal of the clock.
    Taking a number and reading the clock are two actions, so numbers need not be in
    the order of the readings. */
module Readings {
  import opened Counters
  import opened Windows
  import opened Observation

  // ---- samples that change their minute ------------------------------------------------

  /** Over every interleaving: a counted sample lies in another minute than the one it
      was prepared in exactly when its producer took the lock itself and its second
      reading showed another minute. A queued sample never moves. */
  lemma MovedExactly(registry: Registry, revision: string, metrics: bool, seconds: int, steps: seq<Step>, i: nat)
    requires i < |Run(Initial(registry, revision, metrics, seconds), steps).log|
    ensures var x := Run(Initial(registry, revision, metrics, seconds), steps).log[i];
            x.minute != x.event.prepared <==> x.again.Some? && x.again.value != x.event.prepared
  {
    hide Run, Initial;
    Attribution(registry, revision, metrics, seconds, steps);
    assert HonestEntry(Run(Initial(registry, revision, metrics, seconds), steps).log[i]);
  }

  /** A run that moves one: prepared in minute 0, its producer takes the free lock after
      the boundary and counts it in minute 60. */
  lemma MovedSample(revision: string)
    ensures var registry := map["t" := map[1 := "s"]];
            var ref := AuthRef("t", 1, "");
            var i := Initial(registry, revision, false, 0);
            var e := Event("k", Target(0, "x"), 0, 2, 1, true, 0, Some("s"), 0);
            var s := Run(i, [BeginChange(Bind("k", ref)), Advance, Advance, Advance] + ([Arrive("k", "x", 1, true, 0), Number(Flying(e, 0, Loaded)),
                         Read(Flying(e, 1, Numbered), 59), Check(Flying(e, 1, Stamped))] + ([Enter(Flying(e, 1, Passed)), Renumber, Reread(60), Finish] + [])));
            |s.log| == 1 && s.log[0].event.prepared == 0 && s.log[0].minute == 60 && s.log[0].again == Some(60)
  {
    var ref := AuthRef("t", 1, "");
    var i := Initial(map["t" := map[1 := "s"]], revision, false, 0);
    var e := Event("k", Target(0, "x"), 0, 2, 1, true, 0, Some("s"), 0);
    MovedBind(i, ref);
    var s := i.(core := i.core.(authRefs := map["k" := ref], bindings := map["k" := "s"], generation := 2));
    Four(i, BeginChange(Bind("k", ref)), Advance, Advance, Advance,
         [Arrive("k", "x", 1, true, 0), Number(Flying(e, 0, Loaded)), Read(Flying(e, 1, Numbered), 59), Check(Flying(e, 1, Stamped))]
         + ([Enter(Flying(e, 1, Passed)), Renumber, Reread(60), Finish] + []));
    Four(s, Arrive("k", "x", 1, true, 0), Number(Flying(e, 0, Loaded)), Read(Flying(e, 1, Numbered), 59), Check(Flying(e, 1, Stamped)),
         [Enter(Flying(e, 1, Passed)), Renumber, Reread(60), Finish] + []);
    var t := s.(core := s.core.(sequence := 1), flying := multiset{Flying(e, 1, Passed)}, attempts := 1, readings := [Reading(1, 0)]);
    MovedPrepare(s, e);
    Four(t, Enter(Flying(e, 1, Passed)), Renumber, Reread(60), Finish, []);
    MovedFinish(t, e);
  }

  lemma MovedBind(i: Sys, ref: AuthRef)
    requires i.lock == Free && i.core.registry == map["t" := map[1 := "s"]] && ref == AuthRef("t", 1, "") && i.core.authRefs == map[] && i.core.bindings == map[]
    requires i.core.generation == 0
    ensures Next(Next(Next(Next(i, BeginChange(Bind("k", ref))), Advance), Advance), Advance)
            == i.(core := i.core.(authRefs := map["k" := ref], bindings := map["k" := "s"], generation := 2))
  {
    var c := i.core;
    assert SubjectOf(c.registry, ref) == Some("s");
    var s1 := Next(i, BeginChange(Bind("k", ref)));
    var s2 := Next(s1, Advance);
    assert s2 == i.(core := Bump(c), lock := Changing(Bind("k", ref), 1));
    var s3 := Next(s2, Advance);
    assert s3 == i.(core := c.(authRefs := map["k" := ref], bindings := map["k" := "s"], generation := 1), lock := Changing(Bind("k", ref), 2));
  }

  // one action of a producer among others

  lemma ArriveAct(s: Sys, key: string, value: string, port: nat, tcp: bool, outcome: nat)
    ensures Next(s, Arrive(key, value, port, tcp, outcome))
            == s.(attempts := s.attempts + 1, flying := s.flying + multiset{Flying(Unread(s.core, key, value, port, tcp, outcome), 0, Loaded)})
  {
  }

  lemma NumberAct(s: Sys, e: Event, others: multiset<Flying>)
    requires s.flying == multiset{Flying(e, 0, Loaded)} + others
    ensures Next(s, Number(Flying(e, 0, Loaded)))
            == s.(core := s.core.(sequence := s.core.sequence + 1), flying := others + multiset{Flying(e, s.core.sequence + 1, Numbered)})
  {
    assert s.flying - multiset{Flying(e, 0, Loaded)} == others;
  }

  lemma ReadAct(s: Sys, e: Event, n: nat, seconds: int, others: multiset<Flying>)
    requires s.flying == multiset{Flying(e, n, Numbered)} + others
    ensures Next(s, Read(Flying(e, n, Numbered), seconds))
            == s.(readings := s.readings + [Reading(n, Minute(seconds))], flying := others + multiset{Flying(Stamp(e, Minute(seconds)), n, Stamped)})
  {
    hide Minute, Stamp;
    assert s.flying - multiset{Flying(e, n, Numbered)} == others;
  }

  lemma CheckAct(s: Sys, e: Event, n: nat, others: multiset<Flying>)
    requires s.flying == multiset{Flying(e, n, Stamped)} + others
    ensures var r := ObserveMinute(s.core, e.minute, n);
            Next(s, Check(Flying(e, n, Stamped)))
            == s.(core := r.0, reversals := Backwards(s, e.minute, n), flying := if r.1 then others + multiset{Flying(e, n, Passed)} else others)
  {
    hide ObserveMinute, Backwards;
    assert s.flying - multiset{Flying(e, n, Stamped)} == others;
  }

  lemma MovedPrepare(s: Sys, e: Event)
    requires s.lock == Free && s.flying == multiset{} && s.core.sequence == 0 && s.core.generation == 2 && s.core.bindings == map["k" := "s"]
    requires s.core.start == 0 && s.core.marker == Marker(0, 0) && s.attempts == 0 && s.readings == [] && s.reversals == 0
    requires e == Event("k", Target(0, "x"), 0, 2, 1, true, 0, Some("s"), 0)
    ensures Next(Next(Next(Next(s, Arrive("k", "x", 1, true, 0)), Number(Flying(e, 0, Loaded))), Read(Flying(e, 1, Numbered), 59)), Check(Flying(e, 1, Stamped)))
            == s.(core := s.core.(sequence := 1), flying := multiset{Flying(e, 1, Passed)}, attempts := 1, readings := [Reading(1, 0)])
  {
    hide Next, Minute, Stamp, Unread, ObserveMinute, Reverses, Backwards;
    var c := s.core.(sequence := 1);
    MovedClock(s.core, e);
    ArriveAct(s, "k", "x", 1, true, 0);
    var s1 := s.(attempts := 1, flying := multiset{Flying(e, 0, Loaded)});
    assert Next(s, Arrive("k", "x", 1, true, 0)) == s1;
    NumberAct(s1, e, multiset{});
    var s2 := s1.(core := c, flying := multiset{Flying(e, 1, Numbered)});
    assert Next(s1, Number(Flying(e, 0, Loaded))) == s2;
    ReadAct(s2, e, 1, 59, multiset{});
    var s3 := s2.(readings := [Reading(1, 0)], flying := multiset{Flying(e, 1, Stamped)});
    assert Next(s2, Read(Flying(e, 1, Numbered), 59)) == s3;
    CheckAct(s3, e, 1, multiset{});
    Judge(s3, e.minute, 1);
  }

  lemma MovedClock(c: Core, e: Event)
    requires c.generation == 2 && c.bindings == map["k" := "s"] && c.start == 0 && c.marker == Marker(0, 0)
    requires e == Event("k", Target(0, "x"), 0, 2, 1, true, 0, Some("s"), 0)
    ensures Minute(59) == 0 && Stamp(e, 0) == e && Unread(c, "k", "x", 1, true, 0) == e
    ensures ObserveMinute(c.(sequence := 1), 0, 1) == (c.(sequence := 1), true) && !Reverses(c.(sequence := 1), 0, 1)
  {
  }

  lemma Judge(s: Sys, minute: int, n: nat)
    ensures Backwards(s, minute, n) == if Reverses(s.core, minute, n) then s.reversals + 1 else s.reversals
  {
  }

  lemma MovedFinish(t: Sys, e: Event)
    requires t.lock == Free && t.flying == multiset{Flying(e, 1, Passed)} && t.core.sequence == 1 && t.core.generation == 2 && t.core.bindings == map["k" := "s"]
    requires t.core.start == 0 && t.core.marker == Marker(0, 0) && t.core.pending == [] && t.core.window.accounts == map[] && t.core.window.edges == 0
    requires t.core.next.None? && !t.core.metrics && t.log == []
    requires e == Event("k", Target(0, "x"), 0, 2, 1, true, 0, Some("s"), 0)
    ensures var s := Next(Next(Next(Next(t, Enter(Flying(e, 1, Passed))), Renumber), Reread(60)), Finish);
            |s.log| == 1 && s.log[0].event.prepared == 0 && s.log[0].minute == 60 && s.log[0].again == Some(60)
  {
    assert Minute(60) == 60;
    var s1 := Next(t, Enter(Flying(e, 1, Passed)));
    var s2 := Next(s1, Renumber);
    var s3 := Next(s2, Reread(60));
    assert s3.lock == Recording(e, BUDGET, Shown(2, 60));
    var c := ObserveMinute(s3.core, 60, 2).0;
    assert c == t.core.(sequence := 2, marker := Marker(2, 60));
    MovedCounted(c, Restamped(e, 60));
    hide RecordIn;
  }

  lemma MovedCounted(c: Core, e: Event)
    requires c.bindings == map["k" := "s"] && c.window.accounts == map[] && c.window.edges == 0 && c.next.None? && !c.metrics
    requires e.key == "k" && e.outcome == 0
    ensures RecordIn(c, NextOf(c), e).1 == Counted
  {
  }

  // ---- a whole call as steps -------------------------------------------------------------

  lemma EnterAct(s: Sys, e: Event, n: nat, others: multiset<Flying>)
    requires s.flying == multiset{Flying(e, n, Passed)} + others
    ensures Next(s, Enter(Flying(e, n, Passed)))
            == if s.lock.Free? then s.(flying := others, lock := Recording(e, BUDGET, NotYet)) else s.(flying := others, core := EnqueueTo(s.core, e))
  {
    hide EnqueueTo;
    assert s.flying - multiset{Flying(e, n, Passed)} == others;
  }

  function Drains(n: nat): seq<Step> { if n == 0 then [] else [DrainOne] + Drains(n - 1) }

  lemma DrainAct(s: Sys)
    requires s.lock.Recording? && s.lock.again == NotYet && s.lock.left > 0 && s.core.pending != []
    ensures var t, c := Next(s, DrainOne), s.core.(pending := s.core.pending[1..]);
            && t.lock == Recording(s.lock.event, s.lock.left - 1, NotYet) && t.core == Record(c, s.core.pending[0])
            && t.flying == s.flying && t.attempts == s.attempts && t.closed == s.closed && Drain(s.core, s.lock.left) == Drain(t.core, t.lock.left)
  {
    hide Record, Counts;
  }

  /** As many drain steps as the budget allows. */
  lemma {:induction false} DrainRun(s: Sys, rest: seq<Step>) returns (t: Sys)
    requires s.lock.Recording? && s.lock.again == NotYet
    ensures Run(s, Drains(s.lock.left) + rest) == Run(t, rest)
    ensures t.core == Drain(s.core, s.lock.left) && t.flying == s.flying && t.lock.Recording? && t.lock.event == s.lock.event && t.lock.again == NotYet
    ensures (t.lock.left == 0 || t.core.pending == []) && t.attempts == s.attempts && t.closed == s.closed
    decreases s.lock.left
  {
    hide Next, Record;
    var n := s.lock.left;
    if s.core.pending == [] || n == 0 {
      t := s;
      Idle(s, n, rest);
    } else {
      DrainAct(s);
      assert Drains(n) + rest == [DrainOne] + (Drains(n - 1) + rest);
      hide Drain;
      One(s, DrainOne, Drains(n - 1) + rest);
      t := DrainRun(Next(s, DrainOne), rest);
    }
  }

  lemma {:induction false} Idle(s: Sys, n: nat, rest: seq<Step>)
    requires s.core.pending == [] || n == 0
    ensures Run(s, Drains(n) + rest) == Run(s, rest)
    decreases n
  {
    if n == 0 {
      assert Drains(n) + rest == rest;
    } else {
      assert Drains(n) + rest == [DrainOne] + (Drains(n - 1) + rest);
      One(s, DrainOne, Drains(n - 1) + rest);
      assert Next(s, DrainOne) == s;
      Idle(s, n - 1, rest);
    }
  }

  /** The steps of a producer up to the lock, and under it. */
  function Producing(s: Sys, key: string, value: string, port: nat, tcp: bool, outcome: nat, first: int): seq<Step> {
    var e, n := Unread(s.core, key, value, port, tcp, outcome), s.core.sequence + 1;
    [Arrive(key, value, port, tcp, outcome), Number(Flying(e, 0, Loaded)), Read(Flying(e, n, Numbered), first),
     Check(Flying(Stamp(e, Minute(first)), n, Stamped))]
  }

  function Entering(s: Sys, key: string, value: string, port: nat, tcp: bool, outcome: nat, first: int): Step {
    Enter(Flying(Prepared(s.core, key, value, port, tcp, outcome, Minute(first)), s.core.sequence + 1, Passed))
  }

  lemma StampMinute(e: Event, minute: int)
    ensures Stamp(e, minute).minute == minute
  {
  }

  lemma Produces(s: Sys, key: string, value: string, port: nat, tcp: bool, outcome: nat, first: int, rest: seq<Step>)
    ensures var e, n := Prepared(s.core, key, value, port, tcp, outcome, Minute(first)), s.core.sequence + 1;
            var r := ObserveMinute(s.core.(sequence := n), Minute(first), n);
            var b := s.(attempts := s.attempts + 1, core := s.core.(sequence := n), readings := s.readings + [Reading(n, Minute(first))]);
            Run(s, Producing(s, key, value, port, tcp, outcome, first) + rest)
            == Run(b.(core := r.0, reversals := Backwards(b, Minute(first), n), flying := if r.1 then s.flying + multiset{Flying(e, n, Passed)} else s.flying), rest)
  {
    hide Next, Minute, ObserveMinute, Backwards, Stamp, Unread, Run;
    var e, n, m := Unread(s.core, key, value, port, tcp, outcome), s.core.sequence + 1, Minute(first);
    var p := Stamp(e, m);
    assert p.minute == m by { StampMinute(e, m); }
    Four(s, Arrive(key, value, port, tcp, outcome), Number(Flying(e, 0, Loaded)), Read(Flying(e, n, Numbered), first), Check(Flying(p, n, Stamped)), rest);
    ArriveAct(s, key, value, port, tcp, outcome);
    var s1 := s.(attempts := s.attempts + 1, flying := s.flying + multiset{Flying(e, 0, Loaded)});
    assert Next(s, Arrive(key, value, port, tcp, outcome)) == s1;
    NumberAct(s1, e, s.flying);
    var s2 := s1.(core := s.core.(sequence := n), flying := s.flying + multiset{Flying(e, n, Numbered)});
    assert Next(s1, Number(Flying(e, 0, Loaded))) == s2;
    ReadAct(s2, e, n, first, s.flying);
    var s3 := s2.(readings := s.readings + [Reading(n, m)], flying := s.flying + multiset{Flying(p, n, Stamped)});
    assert Next(s2, Read(Flying(e, n, Numbered), first)) == s3;
    CheckAct(s3, p, n, s.flying);
    Judge(s3, m, n);
    Judge(s3.(flying := s.flying), m, n);
  }

  /** What follows the first check: nothing if it refused, else the attempt at the lock
      and, under a free lock, drains, second reading and record. */
  function Following(s: Sys, key: string, value: string, port: nat, tcp: bool, outcome: nat, first: int, second: int): seq<Step> {
    var n := s.core.sequence + 1;
    if !ObserveMinute(s.core.(sequence := n), Minute(first), n).1 then []
    else [Entering(s, key, value, port, tcp, outcome, first)] + (if s.lock.Free? then Drains(BUDGET) + [Renumber, Reread(second), Finish] else [])
  }

  /** An undisturbed call of `observeEvent` is a run of the system, so every theorem
      about runs holds for it. */
  lemma ObserveIsSteps(s: Sys, key: string, value: string, port: nat, tcp: bool, outcome: nat, first: int, second: int)
    ensures var t := Run(s, Producing(s, key, value, port, tcp, outcome, first) + Following(s, key, value, port, tcp, outcome, first, second));
            && t.core == ObserveTo(s.core, key, value, port, tcp, outcome, Minute(first), !s.lock.Free?, Minute(second))
            && t.flying == s.flying && t.attempts == s.attempts + 1 && t.closed == s.closed
  {
    hide Minute, ObserveMinute, Next, RecordTo, EnqueueTo, Backwards, Unread, Stamp;
    var n := s.core.sequence + 1;
    var e, r := Prepared(s.core, key, value, port, tcp, outcome, Minute(first)), ObserveMinute(s.core.(sequence := n), Minute(first), n);
    Produces(s, key, value, port, tcp, outcome, first, Following(s, key, value, port, tcp, outcome, first, second));
    if r.1 {
      var b := s.(attempts := s.attempts + 1, core := s.core.(sequence := n), readings := s.readings + [Reading(n, Minute(first))]);
      var t := b.(core := r.0, reversals := Backwards(b, Minute(first), n), flying := s.flying + multiset{Flying(e, n, Passed)});
      ObserveAlike(s.core.(sequence := n), Minute(first), n);
      var tail := if s.lock.Free? then Drains(BUDGET) + [Renumber, Reread(second), Finish] else [];
      One(t, Entering(s, key, value, port, tcp, outcome, first), tail);
      EnterAct(t, e, n, s.flying);
      if s.lock.Free? { RecordSteps(t.(flying := s.flying, lock := Recording(e, BUDGET, NotYet)), second); }
    }
  }

  lemma RecordSteps(s: Sys, second: int)
    requires s.lock.Recording? && s.lock.left == BUDGET && s.lock.again == NotYet
    ensures var t := Run(s, Drains(BUDGET) + [Renumber, Reread(second), Finish]);
            t.core == RecordTo(s.core, s.lock.event, Minute(second)) && t.flying == s.flying && t.attempts == s.attempts && t.closed == s.closed
  {
    hide Minute, ObserveMinute, Record, Drain, Counts, Next;
    var t := DrainRun(s, [Renumber, Reread(second), Finish]);
    One(t, Renumber, [Reread(second), Finish]);
    One(Next(t, Renumber), Reread(second), [Finish]);
    One(Next(Next(t, Renumber), Reread(second)), Finish, []);
    assert [Renumber] + [Reread(second), Finish] == [Renumber, Reread(second), Finish] && [Reread(second)] + [Finish] == [Reread(second), Finish] && [Finish] + [] == [Finish];
    FinishActs(t, second);
  }

  lemma FinishActs(t: Sys, second: int)
    requires t.lock.Recording? && t.lock.again == NotYet && (t.lock.left == 0 || t.core.pending == [])
    ensures var u := Next(Next(Next(t, Renumber), Reread(second)), Finish);
            var r := ObserveMinute(t.core.(sequence := t.core.sequence + 1), Minute(second), t.core.sequence + 1);
            && u.core == (if r.1 then Record(r.0, Restamped(t.lock.event, Minute(second))) else r.0)
            && u.flying == t.flying && u.attempts == t.attempts && u.closed == t.closed
  {
    hide Minute, ObserveMinute, Record, Counts;
    var t1 := t.(core := t.core.(sequence := t.core.sequence + 1), lock := t.lock.(again := Took(t.core.sequence + 1)));
    assert Next(t, Renumber) == t1;
    assert Next(t1, Reread(second)).lock == Recording(t.lock.event, t.lock.left, Shown(t.core.sequence + 1, Minute(second)));
  }

  // ---- the marker over a run ---------------------------------------------------------------

  /** Numbers are in the order of the minutes. */
  ghost predicate Agrees(readings: seq<Reading>) {
    forall i, j :: 0 <= i < |readings| && 0 <= j < |readings| && readings[i].sequence <= readings[j].sequence ==> readings[i].minute <= readings[j].minute
  }

  /** The marker is no later than the open window, or one of the readings taken. */
  ghost predicate Stems(c: Core, readings: seq<Reading>) { c.marker.minute <= c.start || Reading(c.marker.sequence, c.marker.minute) in readings }

  ghost predicate Noted(s: Sys) {
    && (forall f :: f in s.flying && (f.stage == Stamped || f.stage == Passed) ==> Reading(f.sequence, f.event.minute) in s.readings)
    && (s.lock.Recording? && s.lock.again.Shown? ==> Reading(s.lock.again.sequence, s.lock.again.minute) in s.readings)
    && (s.lock.Draining? && s.lock.closing.Some? ==> s.lock.closing.value > s.core.start)
  }

  ghost predicate Traced(s: Sys) { Stems(s.core, s.readings) && Noted(s) && (s.reversals > 0 ==> !Agrees(s.readings)) }

  /** A reading refused because of the marker proves that numbers and readings were out
      of order, or that the clock went back. */
  lemma ReversalDisagrees(c: Core, readings: seq<Reading>, r: Reading)
    requires Stems(c, readings) && r in readings && Reverses(c, r.minute, r.sequence)
    ensures !Agrees(readings)
  {
    var i :| 0 <= i < |readings| && readings[i] == Reading(c.marker.sequence, c.marker.minute);
    var j :| 0 <= j < |readings| && readings[j] == r;
    assert readings[i].sequence <= readings[j].sequence && readings[j].minute < readings[i].minute;
  }

  lemma DisagreesOn(readings: seq<Reading>, r: Reading)
    requires !Agrees(readings)
    ensures !Agrees(readings + [r])
  {
    var i, j :| 0 <= i < |readings| && 0 <= j < |readings| && readings[i].sequence <= readings[j].sequence && readings[j].minute < readings[i].minute;
    var more := readings + [r];
    assert more[i] == readings[i] && more[j] == readings[j];
  }

  /** The marker after a reading was judged. */
  lemma JudgedStems(c: Core, minute: int, sequence: nat, readings: seq<Reading>)
    requires Stems(c, readings) && Reading(sequence, minute) in readings
    ensures Stems(ObserveMinute(c, minute, sequence).0, readings)
  {
  }

  lemma RecordStems(c: Core, e: Event)
    ensures Record(c, e).marker == c.marker && Record(c, e).start == c.start
  {
    hide RecordIn, NextOf, Stale, Outside, Overflowed;
  }

  lemma ReadTraced(s: Sys, f: Flying, minute: int)
    requires Traced(s)
    ensures Traced(ReadTo(s, f, minute)) && Traced(RereadTo(s, minute))
  {
    if s.reversals > 0 {
      DisagreesOn(s.readings, Reading(f.sequence, minute));
      if s.lock.Recording? && s.lock.again.Took? { DisagreesOn(s.readings, Reading(s.lock.again.sequence, minute)); }
    }
    hide Agrees;
  }

  lemma CheckTraced(s: Sys, f: Flying)
    requires Traced(s)
    ensures Traced(CheckTo(s, f))
  {
    if f in s.flying && f.stage == Stamped {
      if Reverses(s.core, f.event.minute, f.sequence) { ReversalDisagrees(s.core, s.readings, Reading(f.sequence, f.event.minute)); }
      JudgedStems(s.core, f.event.minute, f.sequence, s.readings);
      ObserveAlike(s.core, f.event.minute, f.sequence);
    }
    hide Agrees, Stems, ObserveMinute, Reverses;
  }

  lemma FinishTraced(s: Sys)
    requires Traced(s)
    ensures Traced(FinishTo(s))
  {
    if s.lock.Recording? && s.lock.again.Shown? {
      var minute, sequence := s.lock.again.minute, s.lock.again.sequence;
      if Reverses(s.core, minute, sequence) { ReversalDisagrees(s.core, s.readings, Reading(sequence, minute)); }
      JudgedStems(s.core, minute, sequence, s.readings);
      ObserveAlike(s.core, minute, sequence);
      RecordStems(ObserveMinute(s.core, minute, sequence).0, Restamped(s.lock.event, minute));
    }
    hide Agrees, ObserveMinute, Reverses, Record, Counts;
  }

  lemma DrainTraced(s: Sys)
    requires Traced(s)
    ensures Traced(Next(s, DrainOne))
  {
    if MayDrain(s.lock) && s.core.pending != [] { RecordStems(s.core.(pending := s.core.pending[1..]), s.core.pending[0]); }
    hide Agrees, Record, Counts;
  }

  lemma EndDrainTraced(s: Sys)
    requires Traced(s)
    ensures Traced(EndDrainTo(s))
  {
    if s.lock.Draining? && s.lock.closing.Some? { CloseMarker(s.core, s.lock.closing.value); }
    hide Agrees, Close;
  }

  lemma CloseMarker(c: Core, end: int)
    ensures Close(c, end).0.marker == c.marker && Close(c, end).0.start == end
  {
  }

  lemma AdvanceTraced(s: Sys)
    requires Traced(s)
    ensures Traced(AdvanceTo(s))
  {
    if s.lock.Changing? { AdvanceMarker(s.core, s.lock.change, s.lock.phase); }
    hide Agrees, AdvanceCore;
  }

  lemma AdvanceMarker(c: Core, change: Change, phase: nat)
    ensures AdvanceCore(c, change, phase).marker == c.marker && AdvanceCore(c, change, phase).start == c.start
  {
    ApplyAlike(c, change);
    ApplyMarker(c, change);
    hide Apply, NextOf, NoWindow;
  }

  lemma ApplyMarker(c: Core, change: Change)
    ensures Apply(c, change).marker == c.marker
  {
    hide Rebound, SubjectOf, Tagged;
  }

  lemma PlainTraced(s: Sys, step: Step)
    requires Traced(s) && (step.Malformed? || step.Renumber? || step.BeginDrain? || step.BeginChange?)
    ensures Traced(Next(s, step))
  {
    hide Agrees, Minute;
  }

  lemma ProducerTraced(s: Sys, step: Step)
    requires Traced(s) && (step.Arrive? || step.Number? || step.Enter?)
    ensures Traced(Next(s, step))
  {
    hide Agrees;
    if step.Enter? { EnterMarker(s, step.flying); }
    if step.Number? { NumberTraced(s, step.flying); }
    hide EnterTo, NumberTo, Unread;
  }

  lemma NumberTraced(s: Sys, f: Flying)
    requires Traced(s)
    ensures Traced(NumberTo(s, f))
  {
    hide Agrees;
  }

  lemma EnterMarker(s: Sys, f: Flying)
    ensures var t := EnterTo(s, f);
            && t.core.marker == s.core.marker && t.core.start == s.core.start && t.readings == s.readings && t.reversals == s.reversals
            && (t.lock == s.lock || t.lock == Recording(f.event, BUDGET, NotYet)) && forall g :: g in t.flying ==> g in s.flying
  {
  }

  lemma StepTraced(s: Sys, step: Step)
    requires Traced(s)
    ensures Traced(Next(s, step))
  {
    hide Traced, ReadTo, RereadTo, CheckTo, FinishTo, EndDrainTo, AdvanceTo;
    match step
    case Read(f, seconds) => ReadTraced(s, f, Minute(seconds));
    case Reread(seconds) => ReadTraced(s, Flying(Unread(s.core, "", "", 0, true, 0), 0, Loaded), Minute(seconds));
    case Check(f) => CheckTraced(s, f);
    case DrainOne => DrainTraced(s);
    case Finish => FinishTraced(s);
    case EndDrain => EndDrainTraced(s);
    case Advance => AdvanceTraced(s);
    case Arrive(_, _, _, _, _) => ProducerTraced(s, step);
    case Number(_) => ProducerTraced(s, step);
    case Enter(_) => ProducerTraced(s, step);
    case _ => PlainTraced(s, step);
  }

  lemma FinishReversals(s: Sys)
    ensures FinishTo(s).reversals == if s.lock.Recording? && s.lock.again.Shown? then Backwards(s, s.lock.again.minute, s.lock.again.sequence) else s.reversals
  {
    hide ObserveMinute, Backwards;
  }

  lemma {:induction false} RunTraced(s: Sys, steps: seq<Step>)
    requires Traced(s)
    ensures Traced(Run(s, steps))
    decreases |steps|
  {
    hide Traced, Next;
    if steps != [] {
      StepTraced(s, steps[0]);
      RunTraced(Next(s, steps[0]), steps[1..]);
    }
  }

  /** The reading lies in the window or its lookahead, where only the marker decides. */
  predicate InWindow(c: Core, minute: int) { c.start <= minute <= c.start + 60 }

  /** In every state of every run: a reading that a producer has judged now, the first
      one or the second one under the lock, is refused as a reversal exactly when the
      marker standing then has a number at most its own and a later minute; the marker is a reading taken before or no later than the
      window; and if numbers agree with readings, none was ever refused so. */
  lemma ReversalInRun(registry: Registry, revision: string, metrics: bool, seconds: int, steps: seq<Step>, f: Flying)
    ensures var s := Run(Initial(registry, revision, metrics, seconds), steps);
            && (f in s.flying && f.stage == Stamped && InWindow(s.core, f.event.minute) ==>
                  (Next(s, Check(f)).reversals == s.reversals + 1 <==> s.core.marker.sequence <= f.sequence && f.event.minute < s.core.marker.minute))
            && (s.lock.Recording? && s.lock.again.Shown? && InWindow(s.core, s.lock.again.minute) ==>
                  (Next(s, Finish).reversals == s.reversals + 1 <==>
                     s.core.marker.sequence <= s.lock.again.sequence && s.lock.again.minute < s.core.marker.minute))
            && Stems(s.core, s.readings)
            && (Agrees(s.readings) ==> s.reversals == 0)
  {
    var i := Initial(registry, revision, metrics, seconds);
    assert Traced(i) by { hide Minute; }
    RunTraced(i, steps);
    hide Run, Initial, Agrees, ObserveMinute, RecordSys;
    FinishReversals(Run(i, steps));
  }

  /** A false reversal: the clock goes only forward, from minute 0 to minute 60. A takes
      number 1 and waits, B takes number 2 and reads minute 0, A reads minute 60 and
      is judged first; B is then refused and the window marked with a clock gap. */
  lemma FalseReversal(registry: Registry, revision: string)
    ensures var a := Unread(Initial(registry, revision, false, 0).core, "a", "x", 1, true, 0);
            var b := Unread(Initial(registry, revision, false, 0).core, "b", "x", 1, true, 0);
            var steps := [Arrive("a", "x", 1, true, 0), Arrive("b", "x", 1, true, 0), Number(Flying(a, 0, Loaded)), Number(Flying(b, 0, Loaded))]
                         + ([Read(Flying(b, 2, Numbered), 0), Read(Flying(a, 1, Numbered), 60),
                             Check(Flying(Stamp(a, 60), 1, Stamped)), Check(Flying(Stamp(b, 0), 2, Stamped))] + []);
            var s := Run(Initial(registry, revision, false, 0), steps);
            && s.readings == [Reading(2, 0), Reading(1, 60)] && Forward(s.readings)
            && s.reversals == 1 && s.core.clockGap && s.core.dropped == 1
  {
    var i := Initial(registry, revision, false, 0);
    var a, b := Unread(i.core, "a", "x", 1, true, 0), Unread(i.core, "b", "x", 1, true, 0);
    Four(i, Arrive("a", "x", 1, true, 0), Arrive("b", "x", 1, true, 0), Number(Flying(a, 0, Loaded)), Number(Flying(b, 0, Loaded)),
         [Read(Flying(b, 2, Numbered), 0), Read(Flying(a, 1, Numbered), 60), Check(Flying(Stamp(a, 60), 1, Stamped)), Check(Flying(Stamp(b, 0), 2, Stamped))] + []);
    var s := i.(core := i.core.(sequence := 2), attempts := 2, flying := multiset{Flying(a, 1, Numbered)} + multiset{Flying(b, 2, Numbered)});
    Four(s, Read(Flying(b, 2, Numbered), 0), Read(Flying(a, 1, Numbered), 60), Check(Flying(Stamp(a, 60), 1, Stamped)), Check(Flying(Stamp(b, 0), 2, Stamped)), []);
    FalseNumbers(i, a, b);
    FalseChecks(s, a, b);
  }

  lemma FalseNumbers(i: Sys, a: Event, b: Event)
    requires i.flying == multiset{} && i.core.sequence == 0 && i.attempts == 0
    requires a == Unread(i.core, "a", "x", 1, true, 0) && b == Unread(i.core, "b", "x", 1, true, 0)
    ensures Next(Next(Next(Next(i, Arrive("a", "x", 1, true, 0)), Arrive("b", "x", 1, true, 0)), Number(Flying(a, 0, Loaded))), Number(Flying(b, 0, Loaded)))
            == i.(core := i.core.(sequence := 2), attempts := 2, flying := multiset{Flying(a, 1, Numbered)} + multiset{Flying(b, 2, Numbered)})
  {
    hide Next, Unread;
    ArriveAct(i, "a", "x", 1, true, 0);
    var s1 := i.(attempts := 1, flying := multiset{} + multiset{Flying(a, 0, Loaded)});
    ArriveAct(s1, "b", "x", 1, true, 0);
    var s2 := s1.(attempts := 2, flying := multiset{Flying(a, 0, Loaded)} + multiset{Flying(b, 0, Loaded)});
    assert s2.flying == s1.flying + multiset{Flying(b, 0, Loaded)};
    NumberAct(s2, a, multiset{Flying(b, 0, Loaded)});
    var s3 := s2.(core := i.core.(sequence := 1), flying := multiset{Flying(b, 0, Loaded)} + multiset{Flying(a, 1, Numbered)});
    NumberAct(s3, b, multiset{Flying(a, 1, Numbered)});
  }

  lemma FalseChecks(s: Sys, a: Event, b: Event)
    requires s.flying == multiset{Flying(a, 1, Numbered)} + multiset{Flying(b, 2, Numbered)} && s.core.marker == Marker(0, 0) && s.core.start == 0
    requires s.readings == [] && s.reversals == 0 && s.core.dropped == 0
    ensures var t := Next(Next(Next(Next(s, Read(Flying(b, 2, Numbered), 0)), Read(Flying(a, 1, Numbered), 60)),
                                    Check(Flying(Stamp(a, 60), 1, Stamped))), Check(Flying(Stamp(b, 0), 2, Stamped)));
            t.readings == [Reading(2, 0), Reading(1, 60)] && t.reversals == 1 && t.core.clockGap && t.core.dropped == 1
  {
    hide Next, Minute, Stamp, ObserveMinute, Reverses, Backwards, Dropped;
    var p, q := Stamp(a, 60), Stamp(b, 0);
    var c := s.core.(marker := Marker(1, 60));
    FalseClock(s.core, a, b);
    ReadAct(s, b, 2, 0, multiset{Flying(a, 1, Numbered)});
    var s1 := s.(readings := [Reading(2, 0)], flying := multiset{Flying(a, 1, Numbered)} + multiset{Flying(q, 2, Stamped)});
    assert Next(s, Read(Flying(b, 2, Numbered), 0)) == s1;
    ReadAct(s1, a, 1, 60, multiset{Flying(q, 2, Stamped)});
    var s2 := s1.(readings := [Reading(2, 0), Reading(1, 60)], flying := multiset{Flying(q, 2, Stamped)} + multiset{Flying(p, 1, Stamped)});
    assert Next(s1, Read(Flying(a, 1, Numbered), 60)) == s2;
    CheckAct(s2, p, 1, multiset{Flying(q, 2, Stamped)});
    Judge(s2, 60, 1);
    var s3 := s2.(core := c, flying := multiset{Flying(q, 2, Stamped)} + multiset{Flying(p, 1, Passed)});
    assert Next(s2, Check(Flying(p, 1, Stamped))) == s3;
    CheckAct(s3, q, 2, multiset{Flying(p, 1, Passed)});
    Judge(s3, 0, 2);
  }

  lemma FalseClock(c: Core, a: Event, b: Event)
    requires c.marker == Marker(0, 0) && c.start == 0 && c.dropped == 0
    ensures Minute(0) == 0 && Minute(60) == 60 && Stamp(a, 60).minute == 60 && Stamp(b, 0).minute == 0
    ensures ObserveMinute(c, 60, 1) == (c.(marker := Marker(1, 60)), true) && !Reverses(c, 60, 1)
    ensures var d := c.(marker := Marker(1, 60));
            ObserveMinute(d, 0, 2) == (Dropped(d), false) && Reverses(d, 0, 2) && Dropped(d).dropped == 1 && Dropped(d).clockGap
  {
  }

  lemma Four(s: Sys, a: Step, b: Step, c: Step, d: Step, rest: seq<Step>)
    ensures Run(s, [a, b, c, d] + rest) == Run(Next(Next(Next(Next(s, a), b), c), d), rest)
  {
    hide Next;
    One(s, a, [b, c, d] + rest);
    One(Next(s, a), b, [c, d] + rest);
    One(Next(Next(s, a), b), c, [d] + rest);
    One(Next(Next(Next(s, a), b), c), d, rest);
    assert [a, b, c, d] + rest == [a] + ([b, c, d] + rest) && [b, c, d] + rest == [b] + ([c, d] + rest) && [c, d] + rest == [c] + ([d] + rest);
  }

  lemma One(s: Sys, a: Step, rest: seq<Step>)
    ensures Run(s, [a] + rest) == Run(Next(s, a), rest)
  {
    hide Next;
    assert ([a] + rest)[1..] == rest;
  }

  // ---- all orders of arrival ------------------------------------------------------------------

  /** No reading is refused when they are judged in this order. */
  ghost predicate NoneRefused(m: Marker, arrivals: seq<Reading>)
    decreases |arrivals|
  {
    arrivals == [] || (var r := Mark(m, arrivals[0].minute, arrivals[0].sequence); r.1 && NoneRefused(r.0, arrivals[1..]))
  }

  /** ... nor in any other. */
  ghost predicate NeverRefused(m: Marker, readings: seq<Reading>) {
    forall arrivals :: multiset(arrivals) == multiset(readings) ==> NoneRefused(m, arrivals)
  }

  /** The marker is older than the readings. */
  ghost predicate Older(m: Marker, readings: seq<Reading>) { forall r :: r in readings ==> m.sequence <= r.sequence && m.minute <= r.minute }

  lemma {:induction false} AgreeingPass(m: Marker, arrivals: seq<Reading>)
    requires Agrees(arrivals) && forall i :: 0 <= i < |arrivals| && m.sequence <= arrivals[i].sequence ==> m.minute <= arrivals[i].minute
    ensures NoneRefused(m, arrivals)
    decreases |arrivals|
  {
    if arrivals != [] {
      var n := Mark(m, arrivals[0].minute, arrivals[0].sequence).0;
      var rest := arrivals[1..];
      assert forall i :: 0 <= i < |rest| ==> rest[i] == arrivals[i + 1];
      assert Agrees(rest);
      AgreeingPass(n, rest);
    }
  }

  lemma AgreesPermuted(a: seq<Reading>, b: seq<Reading>)
    requires Agrees(a) && multiset(a) == multiset(b)
    ensures Agrees(b)
  {
    forall i, j | 0 <= i < |b| && 0 <= j < |b| && b[i].sequence <= b[j].sequence ensures b[i].minute <= b[j].minute {
      assert b[i] in multiset(a) && b[j] in multiset(a);
      var k :| 0 <= k < |a| && a[k] == b[i];
      var l :| 0 <= l < |a| && a[l] == b[j];
    }
  }

  /** The readings without those at two positions. */
  function Without(readings: seq<Reading>, i: nat, j: nat): seq<Reading>
    requires i < j < |readings|
  {
    readings[..i] + readings[i + 1..j] + readings[j + 1..]
  }

  lemma WithoutTwo(readings: seq<Reading>, i: nat, j: nat)
    requires i < j < |readings|
    ensures multiset([readings[i], readings[j]] + Without(readings, i, j)) == multiset(readings)
    ensures multiset([readings[j], readings[i]] + Without(readings, i, j)) == multiset(readings)
  {
    assert readings == readings[..i] + [readings[i]] + readings[i + 1..j] + [readings[j]] + readings[j + 1..];
  }

  /** If the reading with the smaller number shows the later minute and is judged
      first, the other one is refused. */
  lemma InvertedRefused(m: Marker, r: Reading, t: Reading, rest: seq<Reading>)
    requires m.sequence <= r.sequence <= t.sequence && m.minute <= t.minute < r.minute
    ensures !NoneRefused(m, [r, t] + rest)
  {
    var all := [r, t] + rest;
    assert all[0] == r && all[1..][0] == t && Mark(m, r.minute, r.sequence).0 == Marker(r.sequence, r.minute);
  }

  /** Exactly when no reading can be refused: in every order of arrival none is, if and
      only if numbers are in the order of minutes. */
  lemma NeverRefusedExactly(m: Marker, readings: seq<Reading>)
    requires Older(m, readings)
    ensures NeverRefused(m, readings) <==> Agrees(readings)
  {
    if Agrees(readings) {
      forall arrivals: seq<Reading> | multiset(arrivals) == multiset(readings) ensures NoneRefused(m, arrivals) {
        AgreesPermuted(readings, arrivals);
        forall i | 0 <= i < |arrivals| ensures m.minute <= arrivals[i].minute { assert arrivals[i] in multiset(readings); }
        AgreeingPass(m, arrivals);
      }
    } else {
      var i, j :| 0 <= i < |readings| && 0 <= j < |readings| && readings[i].sequence <= readings[j].sequence && readings[j].minute < readings[i].minute;
      assert readings[i] in readings && readings[j] in readings;
      var rest := if i < j then Without(readings, i, j) else Without(readings, j, i);
      if i < j { WithoutTwo(readings, i, j); } else { WithoutTwo(readings, j, i); }
      InvertedRefused(m, readings[i], readings[j], rest);
    }
  }

  /** The clock went only forward over the readings, listed as they were taken. */
  ghost predicate Forward(readings: seq<Reading>) { forall i, j :: 0 <= i < j < |readings| ==> readings[i].minute <= readings[j].minute }

  /** Under such a clock the condition concerns the minute boundary alone: of two
      readings on its two sides the earlier one must have the smaller number. */
  lemma BoundaryExactly(m: Marker, readings: seq<Reading>)
    requires Older(m, readings) && Forward(readings)
    ensures NeverRefused(m, readings) <==>
            forall i, j :: 0 <= i < j < |readings| && readings[i].minute < readings[j].minute ==> readings[i].sequence < readings[j].sequence
  {
    NeverRefusedExactly(m, readings);
    if Agrees(readings) {
      forall i, j | 0 <= i < j < |readings| && readings[i].minute < readings[j].minute ensures readings[i].sequence < readings[j].sequence { }
    }
  }

  /** The marker never goes back, and it always stems from a reading. */
  lemma {:induction false} MarkerForward(m: Marker, arrivals: seq<Reading>)
    ensures var n := MarkAll(m, arrivals);
            && n.minute >= m.minute && n.sequence >= m.sequence
            && (n == m || exists i :: 0 <= i < |arrivals| && arrivals[i] == Reading(n.sequence, n.minute))
    decreases |arrivals|
  {
    if arrivals != [] {
      var n := Mark(m, arrivals[0].minute, arrivals[0].sequence).0;
      MarkerForward(n, arrivals[1..]);
      var r := MarkAll(m, arrivals);
      if r != n {
        var i :| 0 <= i < |arrivals[1..]| && arrivals[1..][i] == Reading(r.sequence, r.minute);
        assert arrivals[i + 1] == Reading(r.sequence, r.minute);
      } else if n != m {
        assert arrivals[0] == Reading(r.sequence, r.minute);
      }
    }
  }

  /** The marker after some readings were judged in this order. */
  function MarkAll(m: Marker, arrivals: seq<Reading>): Marker
    decreases |arrivals|
  {
    if arrivals == [] then m else MarkAll(Mark(m, arrivals[0].minute, arrivals[0].sequence).0, arrivals[1..])
  }
}
