/** From a closed window to bounded report batches (the tail of `Snapshot` in
    common/beupobserve/observer.go). */
module Reports {
  import opened Text
  import opened Counters
  import opened Sums
  import opened Windows
  import opened Observation

  const BATCH: nat := 200

  datatype Metrics = Metrics(requests: nat, tcp: nat, udp: nat, distinctTargets: nat, distinctPorts: nat, maxRequests: nat, dial: Option<Dial>)

  datatype Subject = Subject(name: string, metrics: Metrics)

  datatype Manifest = Manifest(index: nat, batches: nat, subjects: nat)

  datatype Report = Report(version: nat, revision: string, start: int, end: int, quality: Quality, subjects: seq<Subject>, manifest: Option<Manifest>)

  /** The metrics sent for an account; with dial metrics on, an account always has a
      dial part. */
  function Sent(name: string, a: Account, dials: bool): Subject {
    Subject(name, Metrics(a.requests, a.tcp, a.udp, |a.targets|, |a.ports|, a.maxRequests, if dials then Some(DialOf(a)) else a.dial))
  }

  ghost predicate Ascends(names: seq<string>) { forall i, j :: 0 <= i < j < |names| ==> Less(names[i], names[j]) }

  /** Where a name belongs in ascending names. */
  function Place(names: seq<string>, name: string): (n: nat)
    ensures n <= |names|
    ensures forall i :: 0 <= i < n ==> Less(names[i], name)
    ensures n < |names| ==> !Less(names[n], name)
  {
    if names == [] || !Less(names[0], name) then 0 else 1 + Place(names[1..], name)
  }

  lemma PlaceAscends(names: seq<string>, name: string)
    requires Ascends(names) && name !in names
    ensures var n := Place(names, name);
            Ascends(names[..n] + [name] + names[n..])
  {
    var n := Place(names, name);
    forall j | n <= j < |names| ensures Less(name, names[j]) {
      LessTotal(names[n], name);
      if j > n { LessTransitive(name, names[n], names[j]); }
    }
  }

  /** The names of the accounts in ascending order. */
  method SortedNames(accounts: map<string, Account>) returns (names: seq<string>)
    ensures Ascends(names) && (forall s :: s in names <==> s in accounts) && |names| == |accounts|
  {
    names := [];
    var left := accounts.Keys;
    while left != {}
      invariant left <= accounts.Keys && Ascends(names)
      invariant forall s :: s in names <==> s in accounts && s !in left
      invariant |names| + |left| == |accounts.Keys|
    {
      var s :| s in left;
      PlaceAscends(names, s);
      var n := Place(names, s);
      assert forall x :: x in names <==> x in names[..n] || x in names[n..] by { assert names == names[..n] + names[n..]; }
      names := names[..n] + [s] + names[n..];
      left := left - {s};
    }
  }

  function Batches(n: nat): (b: nat)
    ensures b >= 1 && (n > 0 ==> (b - 1) * BATCH < n <= b * BATCH) && (n == 0 ==> b == 1)
  {
    if n == 0 then 1 else (n + BATCH - 1) / BATCH
  }

  function Joined(reports: seq<Report>): seq<Subject> {
    if reports == [] then [] else Joined(reports[..|reports| - 1]) + reports[|reports| - 1].subjects
  }

  function Lesser(a: nat, b: nat): nat { if a <= b then a else b }

  /** The batch at a position: at most 200 subjects, the quality of the whole window
      and, with dial metrics, how many batches complete it. */
  predicate IsBatch(r: Report, i: nat, c: Closed, dials: bool, total: nat) {
    && r.version == (if dials then 2 else 1) && r.revision == c.revision && r.start == c.start && r.end == c.end && r.quality == c.quality
    && |r.subjects| <= 200
    && r.manifest == if dials then Some(Manifest(i, Batches(total), total)) else None
  }

  /** These are the names, each once. */
  ghost predicate Names(names: seq<string>, keys: set<string>) {
    Ascends(names) && (forall s :: s in names <==> s in keys) && |names| == |keys|
  }

  /** Exactly the accounts of the window, in the order of their names. */
  ghost predicate Lists(subjects: seq<Subject>, names: seq<string>, accounts: map<string, Account>, dials: bool) {
    && Names(names, accounts.Keys) && |subjects| == |names|
    && forall i :: 0 <= i < |names| ==> names[i] in accounts && subjects[i] == Sent(names[i], accounts[names[i]], dials)
  }

  method ListSubjects(accounts: map<string, Account>, dials: bool) returns (subjects: seq<Subject>, ghost names: seq<string>)
    ensures Lists(subjects, names, accounts, dials)
  {
    hide Ascends;
    var order := SortedNames(accounts);
    names := order;
    subjects := [];
    for k := 0 to |order|
      invariant |subjects| == k
      invariant forall i :: 0 <= i < k ==> order[i] in accounts && subjects[i] == Sent(order[i], accounts[order[i]], dials)
    {
      assert order[k] in order;
      subjects := subjects + [Sent(order[k], accounts[order[k]], dials)];
    }
  }

  /** Cuts the subjects into batches; there is always at least one, to carry the
      quality. */
  method Split(c: Closed, subjects: seq<Subject>, dials: bool) returns (reports: seq<Report>)
    ensures |reports| == Batches(|subjects|)
    ensures forall i :: 0 <= i < |reports| ==> IsBatch(reports[i], i, c, dials, |subjects|)
    ensures Joined(reports) == subjects
  {
    reports := [];
    var offset, total := 0, |subjects|;
    while offset < |subjects| || offset == 0
      invariant offset == |reports| * BATCH && |reports| <= Batches(total)
      invariant |reports| < Batches(total) <==> offset < |subjects| || offset == 0
      invariant Joined(reports) == subjects[..Lesser(offset, total)]
      invariant forall i :: 0 <= i < |reports| ==> IsBatch(reports[i], i, c, dials, total)
      decreases Batches(total) - |reports|
    {
      var stop := Lesser(offset + BATCH, total);
      var r := Report(if dials then 2 else 1, c.revision, c.start, c.end, c.quality, subjects[offset..stop],
                      if dials then Some(Manifest(offset / BATCH, Batches(total), total)) else None);
      JoinedOn(reports, r);
      assert subjects[..offset] + subjects[offset..stop] == subjects[..stop];
      reports := reports + [r];
      offset := offset + BATCH;
    }
    assert subjects[..total] == subjects;
  }

  /** A closed window as batches: every account appears exactly once, in ascending
      order and with its own counters, and the requests and dials in the batches add
      up to what the window accepted. */
  method BuildReports(c: Closed, dials: bool) returns (reports: seq<Report>, ghost names: seq<string>)
    ensures Lists(Joined(reports), names, c.accounts, dials)
    ensures |reports| == Batches(|c.accounts|)
    ensures forall i :: 0 <= i < |reports| ==> IsBatch(reports[i], i, c, dials, |c.accounts|)
    ensures Total(Joined(reports)) == Works(c.accounts)
  {
    hide Ascends, Works, Total, Joined, IsBatch;
    var subjects;
    subjects, names := ListSubjects(c.accounts, dials);
    reports := Split(c, subjects, dials);
    Totals(names, c.accounts, dials, subjects);
  }

  lemma JoinedOn(reports: seq<Report>, r: Report)
    ensures Joined(reports + [r]) == Joined(reports) + r.subjects
  {
    assert (reports + [r])[..|reports|] == reports;
  }

  function DialsOf(m: Metrics): nat { if m.dial.Some? then m.dial.value.attempts else 0 }

  /** The requests and dials in a list of subjects. */
  function Total(subjects: seq<Subject>): nat {
    if subjects == [] then 0
    else Total(subjects[..|subjects| - 1]) + subjects[|subjects| - 1].metrics.requests + DialsOf(subjects[|subjects| - 1].metrics)
  }

  lemma SentWork(name: string, a: Account, dials: bool)
    ensures var m := Sent(name, a, dials).metrics;
            m.requests + DialsOf(m) == WorkOf(a)
  {
  }

  /** What is reported per account adds up to what was accepted. */
  lemma {:induction false} Totals(names: seq<string>, accounts: map<string, Account>, dials: bool, subjects: seq<Subject>)
    requires Lists(subjects, names, accounts, dials)
    ensures Total(subjects) == Works(accounts)
    decreases |names|
  {
    if names == [] {
      NoNames(subjects, names, accounts, dials);
    } else {
      var n := |names| - 1;
      ListsRest(subjects, names, accounts, dials);
      hide Lists, Sent, WorkOf, Works;
      Totals(names[..n], accounts - {names[n]}, dials, subjects[..n]);
      SentWork(names[n], accounts[names[n]], dials);
      TakeWork(accounts, names[n]);
    }
  }

  lemma NoNames(subjects: seq<Subject>, names: seq<string>, accounts: map<string, Account>, dials: bool)
    requires Lists(subjects, names, accounts, dials) && names == []
    ensures Total(subjects) == 0 && Works(accounts) == 0
  {
    assert accounts.Keys == {};
    SumEmpty(WorkMap(accounts));
  }

  lemma ListsRest(subjects: seq<Subject>, names: seq<string>, accounts: map<string, Account>, dials: bool)
    requires Lists(subjects, names, accounts, dials) && names != []
    ensures var n := |names| - 1;
            && |subjects| == |names| && names[n] in accounts && subjects[n] == Sent(names[n], accounts[names[n]], dials)
            && Lists(subjects[..n], names[..n], accounts - {names[n]}, dials)
  {
    hide Sent, Names;
    NamesRest(names, accounts.Keys);
    assert (accounts - {names[|names| - 1]}).Keys == accounts.Keys - {names[|names| - 1]};
  }

  lemma TakeWork(accounts: map<string, Account>, name: string)
    requires name in accounts
    ensures Works(accounts) == WorkOf(accounts[name]) + Works(accounts - {name})
  {
    hide WorkOf;
    assert WorkMap(accounts) - {name} == WorkMap(accounts - {name});
    SumTake(WorkMap(accounts), name);
  }

  lemma NamesRest(names: seq<string>, keys: set<string>)
    requires Names(names, keys) && names != []
    ensures names[|names| - 1] in keys && Names(names[..|names| - 1], keys - {names[|names| - 1]})
    ensures forall i :: 0 <= i < |names| - 1 ==> names[i] in keys && names[i] != names[|names| - 1]
  {
    var n := |names| - 1;
    LessIrreflexive(names[n]);
    hide Less;
    assert names[n] in names;
    assert forall i :: 0 <= i < n ==> names[i] != names[n];
    assert names == names[..n] + [names[n]];
    assert forall s :: s in names <==> s in names[..n] || s == names[n];
  }
}
