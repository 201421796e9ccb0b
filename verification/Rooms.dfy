/** When a sample is counted, and where the others go (common/beupobserve/observer.go). */
module Rooms {
  import opened Counters
  import opened Sums
  import opened Windows
  import opened Observation

  /** One more request fits: targets and ports of the account, and the edges of both
      windows together, stay within their limits. */
  predicate RequestFits(a: Account, e: Event, edges: nat) {
    && |a.targets.Keys + {e.target}| <= 2048 && |a.ports + {e.port}| <= 2048
    && edges + |a.targets.Keys + {e.target}| - |a.targets| + |a.ports + {e.port}| - |a.ports| <= 65536
  }

  function RefusedPorts(a: Account, t: Target): set<nat> { if t in a.dialTargets then a.dialTargets[t].ports else {} }

  /** One more refused dial fits: a destination takes an edge, and so does each of its
      ports. */
  predicate RefusalFits(a: Account, e: Event, edges: nat) {
    && |a.dialTargets.Keys + {e.target}| <= 2048 && |RefusedPorts(a, e.target) + {e.port}| <= 2048
    && edges + |a.dialTargets.Keys + {e.target}| - |a.dialTargets| + |RefusedPorts(a, e.target) + {e.port}| - |RefusedPorts(a, e.target)| <= 65536
  }

  /** The account has room for the event; a dial needs dial metrics and a known outcome. */
  predicate Fits(a: Account, e: Event, metrics: bool, edges: nat) {
    if e.outcome == 0 then RequestFits(a, e, edges)
    else metrics && e.outcome <= 5 && (e.outcome == 2 ==> RefusalFits(a, e, edges))
  }

  lemma KeysGrow<T>(m: map<Target, T>, t: Target)
    ensures |m.Keys + {t}| == |m| + (if t in m then 0 else 1)
  {
    if t in m { assert m.Keys + {t} == m.Keys; }
  }

  /** An account within its limits. */
  ghost predicate Bounded(a: Account) {
    |a.targets| <= 2048 && |a.ports| <= 2048 && |a.dialTargets| <= 2048 && forall t :: t in a.dialTargets ==> |a.dialTargets[t].ports| <= 2048
  }

  lemma RequestExactly(a: Account, e: Event, edges: nat)
    requires Bounded(a)
    ensures !(RequestFull(a, e.target, e.port) || edges + RequestDelta(a, e.target, e.port) > EDGES) <==> RequestFits(a, e, edges)
  {
    KeysGrow(a.targets, e.target);
    GrowSet(a.ports, e.port);
  }

  lemma BookedExactly(a: Account, e: Event, metrics: bool, edges: nat)
    requires Bounded(a)
    ensures Booked(a, e, metrics, edges).2 == Counted <==> Fits(a, e, metrics, edges)
  {
    hide AddDial, AddRequest, RequestFull, RequestDelta, DialFull, DialDelta, RequestFits, RefusalFits, Bounded;
    RequestExactly(a, e, edges);
    RefusalExactly(a, e, edges);
  }

  lemma RefusalExactly(a: Account, e: Event, edges: nat)
    requires Bounded(a) && edges >= 0
    ensures !(DialFull(a, e.target, e.port) || edges + DialDelta(a, e.target, e.port) > EDGES) <==> RefusalFits(a, e, edges)
  {
    KeysGrow(a.dialTargets, e.target);
    GrowSet(RefusedPorts(a, e.target), e.port);
  }

  lemma GoodBounded(a: Account, minute: int)
    requires GoodAccount(a, minute)
    ensures Bounded(a)
  {
    hide Sum, DialAttempts;
  }

  lemma SameRoom(a: Account, b: Account, e: Event, metrics: bool, edges: nat)
    requires b.targets == a.targets && b.ports == a.ports && b.dialTargets == a.dialTargets
    ensures (Fits(b, e, metrics, edges) <==> Fits(a, e, metrics, edges)) && (Bounded(b) <==> Bounded(a))
  {
  }

  lemma CreditedFits(a: Account, credential: string, e: Event, metrics: bool, edges: nat)
    ensures Fits(Credited(a, credential), e, metrics, edges) <==> Fits(a, e, metrics, edges)
    ensures Bounded(Credited(a, credential)) <==> Bounded(a)
  {
    hide Fits, Bounded;
    SameRoom(a, Credited(a, credential), e, metrics, edges);
  }

  // ---- the collector -----------------------------------------------------------------------

  /** No identity has changed since the sample's label was looked up, nor was one changing
      then; and its minute is one of the two that are open. */
  predicate Timely(c: Core, e: Event) { e.generation == c.generation && c.generation % 2 == 0 && c.start <= e.minute <= c.start + 60 }

  function WindowOf(c: Core, e: Event): Window { if e.minute == c.start + 60 then NextOf(c) else c.window }

  /** The subject has an account, or there is a free one among both windows. */
  predicate HasSlot(c: Core, e: Event)
    requires e.key in c.bindings
  {
    c.bindings[e.key] in WindowOf(c, e).accounts || |c.window.accounts| + |NextOf(c).accounts| < 4096
  }

  function AccountOf(c: Core, e: Event): Account
    requires e.key in c.bindings
  {
    var w := WindowOf(c, e);
    if c.bindings[e.key] in w.accounts then w.accounts[c.bindings[e.key]] else Empty()
  }

  /** There is room for it. */
  predicate HasRoom(c: Core, e: Event)
    requires e.key in c.bindings
  {
    HasSlot(c, e) && Fits(AccountOf(c, e), e, c.metrics, c.window.edges + NextOf(c).edges)
  }

  lemma RecordInExactly(c: Core, e: Event)
    requires e.key in c.bindings && Bounded(AccountOf(c, e))
    ensures RecordIn(c, WindowOf(c, e), e).1 == Counted <==> HasRoom(c, e)
  {
    var a, credential := AccountOf(c, e), CredentialOf(c, e.key);
    CreditedFits(a, credential, e, c.metrics, Edges(c));
    BookedExactly(if c.metrics then Credited(a, credential) else a, e, c.metrics, Edges(c));
    hide Booked, Fits, Bounded, Credited;
  }

  lemma AccountBounded(c: Core, e: Event)
    requires GoodCore(c) && e.key in c.bindings
    ensures Bounded(AccountOf(c, e))
  {
    hide GoodAccount, Works, TrueEdges;
    if c.bindings[e.key] in WindowOf(c, e).accounts {
      GoodBounded(AccountOf(c, e), if e.minute == c.start + 60 then c.start + 60 else c.start);
    }
  }

  /** In any state a run can reach, a sample is counted exactly when it is timely, its key
      is bound and there is room; it is unmapped exactly when it is timely and its key is
      not bound; it is a loss of no window exactly when it is not timely; and otherwise its
      window notes it as lost. */
  lemma RecordExactly(c: Core, e: Event, again: Option<int>)
    requires GoodCore(c)
    ensures var d := Record(c, e);
            var unmapped := (d.window.unmapped + NextOf(d).unmapped) - (c.window.unmapped + NextOf(c).unmapped);
            var lost := (d.window.lost + NextOf(d).lost) - (c.window.lost + NextOf(c).lost);
            && (Counts(c, e, again) != [] <==> Timely(c, e) && e.key in c.bindings && HasRoom(c, e))
            && unmapped == (if Timely(c, e) && e.key !in c.bindings then 1 else 0)
            && d.dropped - c.dropped == (if Timely(c, e) then 0 else 1)
            && lost == (if Timely(c, e) && e.key in c.bindings && !HasRoom(c, e) then 1 else 0)
  {
    hide GoodCore, HasRoom, RecordIn, Bounded, Record, Counts, Timely;
    RecordTallies(c, e);
    CountsExactly(c, e, again);
    if e.key in c.bindings {
      AccountBounded(c, e);
      RecordInExactly(c, e);
    }
  }

  lemma TimelyExactly(c: Core, e: Event)
    ensures Timely(c, e) <==> !Stale(c, e) && !Outside(c, e)
  {
  }

  lemma CountsExactly(c: Core, e: Event, again: Option<int>)
    ensures Counts(c, e, again) != [] <==> Timely(c, e) && e.key in c.bindings && RecordIn(c, WindowOf(c, e), e).1 == Counted
  {
    TimelyExactly(c, e);
    hide RecordIn, Stale, Outside, Timely;
  }

  lemma RecordTallies(c: Core, e: Event)
    ensures var d, r := Record(c, e), RecordIn(c, WindowOf(c, e), e);
            && (d.window.unmapped + NextOf(d).unmapped) - (c.window.unmapped + NextOf(c).unmapped) == (if Timely(c, e) && e.key !in c.bindings then 1 else 0)
            && d.dropped - c.dropped == (if Timely(c, e) then 0 else 1)
            && (d.window.lost + NextOf(d).lost) - (c.window.lost + NextOf(c).lost) == (if Timely(c, e) && e.key in c.bindings && r.1 != Counted then 1 else 0)
  {
    TimelyExactly(c, e);
    RecordInCounts(c, WindowOf(c, e), e);
    RecordShape(c, e);
    hide RecordIn, Stale, Outside, Timely, Record;
  }

  lemma RecordShape(c: Core, e: Event)
    ensures var d, r := Record(c, e), RecordIn(c, WindowOf(c, e), e);
            if Stale(c, e) || Outside(c, e) then d.window == c.window && d.next == c.next && d.dropped == c.dropped + 1
            else if e.minute == c.start + 60 then d.window == c.window && d.next == Some(r.0) && d.dropped == c.dropped
            else d.window == r.0 && d.next == c.next && d.dropped == c.dropped
  {
    hide RecordIn, Stale, Outside, Overflowed;
  }

  lemma RecordInCounts(c: Core, w: Window, e: Event)
    ensures var r := RecordIn(c, w, e);
            && r.0.unmapped == w.unmapped + (if e.key in c.bindings then 0 else 1)
            && r.0.lost == w.lost + (if e.key in c.bindings && r.1 != Counted then 1 else 0)
  {
    hide Booked, Opened;
  }

  /** A sample that finds the lock taken waits while the queue has room. */
  lemma EnqueueExactly(c: Core, e: Event)
    ensures var d := EnqueueTo(c, e);
            && (|c.pending| < 512 ==> d.pending == c.pending + [e] && d.dropped == c.dropped)
            && (|c.pending| >= 512 ==> d.pending == c.pending && d.dropped == c.dropped + 1)
  {
  }

  // ---- identities ----------------------------------------------------------------------------

  /** The reference a key has after a change, whatever it had before. */
  function RefAfter(c: Core, change: Change, key: string): Option<AuthRef> {
    var was := if key in c.authRefs then Some(c.authRefs[key]) else None;
    match change
    case Bind(k, ref) => if k == key then Some(ref) else was
    case Unbind(k) => if k == key then None else was
    case UnbindTag(tag) => if was.Some? && was.value.tag == tag then None else was
    case Replace(_, _) => was
    case Forget => None
  }

  lemma AppliedRefs(c: Core, change: Change)
    ensures var d := Apply(c, change);
            && d.authRefs == (match change
                              case Bind(k, ref) => c.authRefs[k := ref]
                              case Unbind(k) => c.authRefs - {k}
                              case UnbindTag(tag) => c.authRefs - Tagged(c, tag)
                              case Replace(_, _) => c.authRefs
                              case Forget => map[])
            && d.registry == (if change.Replace? then change.registry else c.registry) && d.revision == (if change.Replace? then change.revision else c.revision)
  {
    hide Apply;
    match change
    case Bind(key, ref) => BoundRefs(c, key, ref);
    case Unbind(key) => UnboundRefs(c, key);
    case UnbindTag(tag) => UntaggedRefs(c, tag);
    case Replace(revision, registry) => ReplacedRefs(c, revision, registry);
    case Forget => ForgottenRefs(c);
  }

  lemma BoundRefs(c: Core, key: string, ref: AuthRef)
    ensures var d := Apply(c, Bind(key, ref)); d.authRefs == c.authRefs[key := ref] && d.registry == c.registry && d.revision == c.revision
  {
    BoundShape(c, key, ref);
    hide Apply;
  }

  lemma BoundShape(c: Core, key: string, ref: AuthRef)
    ensures var d, b := Apply(c, Bind(key, ref)), c.(authRefs := c.authRefs[key := ref]);
            d == b.(bindings := d.bindings)
  {
    hide SubjectOf;
  }

  lemma UnboundRefs(c: Core, key: string)
    ensures var d := Apply(c, Unbind(key)); d.authRefs == c.authRefs - {key} && d.registry == c.registry && d.revision == c.revision
  {
  }

  lemma UntaggedRefs(c: Core, tag: string)
    ensures var d := Apply(c, UnbindTag(tag)); d.authRefs == c.authRefs - Tagged(c, tag) && d.registry == c.registry && d.revision == c.revision
  {
    hide Tagged;
  }

  lemma ReplacedRefs(c: Core, revision: string, registry: Registry)
    ensures var d := Apply(c, Replace(revision, registry)); d.authRefs == c.authRefs && d.registry == registry && d.revision == revision
  {
    hide Rebound;
  }

  lemma ForgottenRefs(c: Core)
    ensures var d := Apply(c, Forget); d.authRefs == map[] && d.registry == c.registry && d.revision == c.revision
  {
  }

  lemma ApplyExactly(c: Core, change: Change, key: string)
    ensures var d := Apply(c, change);
            && (if key in d.authRefs then Some(d.authRefs[key]) else None) == RefAfter(c, change, key)
            && d.registry == (if change.Replace? then change.registry else c.registry) && d.revision == (if change.Replace? then change.revision else c.revision)
  {
    AppliedRefs(c, change);
    hide Apply;
  }

  lemma SubjectExactly(r: Registry, ref: AuthRef, x: string)
    ensures SubjectOf(r, ref) == Some(x) <==> x != "" && ref.tag in r && ref.uid in r[ref.tag] && r[ref.tag][ref.uid] == x
  {
  }

  // ---- clock readings ------------------------------------------------------------------------

  /** The whole minute next to a reading, toward zero. */
  lemma MinuteExactly(seconds: int)
    ensures var m := Minute(seconds);
            m % 60 == 0 && (if seconds >= 0 then m <= seconds < m + 60 else m - 60 < seconds <= m)
  {
    WholeMinute(seconds);
  }

  /** A reading is accepted exactly when its minute is one of the two that are open and the
      marker is not of an earlier number with a later minute; the marker is then the
      reading, if its minute is later and its number not earlier. A refusal is a loss and
      a gap. */
  lemma JudgeExactly(c: Core, minute: int, sequence: nat)
    ensures var r, m := ObserveMinute(c, minute, sequence), c.marker;
            && (r.1 <==> c.start <= minute <= c.start + 60 && !(m.sequence <= sequence && minute < m.minute))
            && (r.1 ==> r.0 == c.(marker := if m.sequence <= sequence && m.minute < minute then Marker(sequence, minute) else m))
            && (!r.1 ==> r.0.dropped == c.dropped + 1 && r.0.clockGap && r.0.marker == m && r.0.window == c.window && r.0.next == c.next)
  {
  }
}
