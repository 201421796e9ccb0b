/** The append-only command journal of common/beupguard/controller.go: which
    signed commands are acceptable, and what replaying them at startup rebuilds. */
module Commands {
  import opened Counters
  import opened Guards

  /** The three operations by name; `Unknown` stands for any other text. */
  datatype Operation = Block | Unblock | Cancel | Unknown

  datatype Command = Command(version: int, node: string, sequence: nat, issuedAt: int, notAfter: int, operation: Operation, lease: Lease)

  datatype Envelope = Envelope(payload: string, signature: string)

  /** A reading of the boot clock: the boot's identifier and the time since it. */
  datatype Stamp = Stamp(id: string, nanos: int)

  datatype Record = Record(envelope: Envelope, acceptedAt: int, boot: Stamp)

  /** The node's name, and signature verification with strict decoding as one
      opaque partial function. */
  datatype Keyring = Keyring(node: string, decode: Envelope -> Option<Command>)

  const HISTORY: nat := 4096

  predicate ValidCommand(node: string, c: Command) {
    && c.version == 1 && c.node == node && c.sequence >= 1
    && c.issuedAt > 0 && c.notAfter > c.issuedAt && c.notAfter - c.issuedAt <= 60
    && (c.operation != Unknown)
    && ValidLease(c.lease, c.lease.startedAt)
    && (c.operation == Block ==> c.lease.startedAt <= c.issuedAt && c.issuedAt - c.lease.startedAt <= 60)
  }

  function Verify(k: Keyring, e: Envelope): Option<Command> {
    if |e.payload| > 1024 || |e.signature| != 128 then None
    else
      var c := k.decode(e);
      if c.Some? && ValidCommand(k.node, c.value) then c else None
  }

  /** The hashed text of an envelope. */
  function DigestText(e: Envelope): string { e.payload + "\n" + e.signature }

  /** Equal digests of verified envelopes mean equal envelopes: the signature has a
      fixed length, so the text can be taken apart again. */
  lemma DigestInjective(k: Keyring, a: Envelope, b: Envelope)
    requires Verify(k, a).Some? && Verify(k, b).Some? && DigestText(a) == DigestText(b)
    ensures a == b
  {
    var n := |a.payload|;
    assert n == |b.payload|;
    assert a.payload == DigestText(a)[..n] && b.payload == DigestText(b)[..n];
    assert a.signature == DigestText(a)[n + 1..] && b.signature == DigestText(b)[n + 1..];
  }

  /** An accepted block that has not been released. */
  datatype Hold = Hold(lease: Lease, acceptedAt: int, boot: Stamp)

  /** What the startup loop has accumulated after some records. */
  datatype History = History(
    count: nat, seen: map<string, Lease>, released: set<string>, cancelled: set<string>, pending: map<Identity, Hold>,
    lastWall: int, previous: Stamp)

  const Blank := History(0, map[], {}, {}, map[], 0, Stamp("", 0))

  function Max(a: int, b: int): int { if a >= b then a else b }

  /** Where the hold ends on its own boot's time line. */
  function Until(p: Hold): int { p.boot.nanos + (p.lease.expiresAt - p.acceptedAt) * SECOND }

  predicate Timely(h: History, c: Command, r: Record) {
    && c.sequence == h.count + 1 && c.issuedAt - 5 <= r.acceptedAt < c.notAfter
    && !(c.operation == Block && r.acceptedAt < h.lastWall)
    && r.boot.id != "" && r.boot.nanos >= 0
    && !(h.previous.id == r.boot.id && r.boot.nanos < h.previous.nanos)
  }

  /** A new block of the same identity may follow only a temporary hold that has
      provably run out in the same boot. */
  predicate Overlaps(p: Hold, boot: Stamp) {
    p.lease.manual || p.boot.id != boot.id || (p.lease.expiresAt - p.acceptedAt) * SECOND > boot.nanos - p.boot.nanos
  }

  predicate Permitted(h: History, c: Command, r: Record) {
    var l := c.lease;
    if c.operation == Cancel then l.id !in h.seen && |h.seen| < HISTORY
    else if c.operation == Unblock then l.id in h.seen && h.seen[l.id] == l && l.id !in h.released
    else l.id !in h.seen && |h.seen| + 1 <= HISTORY && (l.identity in h.pending ==> !Overlaps(h.pending[l.identity], r.boot))
  }

  function Noted(h: History, c: Command, r: Record): History {
    var l := c.lease;
    var h := h.(count := h.count + 1, lastWall := Max(h.lastWall, r.acceptedAt), previous := r.boot);
    if c.operation == Cancel then h.(seen := h.seen[l.id := l], released := h.released + {l.id}, cancelled := h.cancelled + {l.id})
    else if c.operation == Unblock then
      h.(released := h.released + {l.id},
         pending := if l.identity in h.pending && h.pending[l.identity].lease.id == l.id then h.pending - {l.identity} else h.pending)
    else h.(seen := h.seen[l.id := l], pending := h.pending[l.identity := Hold(l, r.acceptedAt, r.boot)])
  }

  predicate Accepts(k: Keyring, h: History, r: Record) {
    var c := Verify(k, r.envelope);
    c.Some? && Timely(h, c.value, r) && Permitted(h, c.value, r)
  }

  /** The startup loop: `None` when some record is rejected. */
  function Replay(k: Keyring, records: seq<Record>): Option<History> {
    if records == [] then Some(Blank)
    else
      var n := |records| - 1;
      var h := Replay(k, records[..n]);
      if h.Some? && Accepts(k, h.value, records[n]) then Some(Noted(h.value, Verify(k, records[n].envelope).value, records[n])) else None
  }

  lemma ReplayOn(k: Keyring, records: seq<Record>, r: Record)
    ensures var h := Replay(k, records);
            Replay(k, records + [r]) == if h.Some? && Accepts(k, h.value, r) then Some(Noted(h.value, Verify(k, r.envelope).value, r)) else None
  {
    assert (records + [r])[..|records|] == records;
  }

  lemma {:induction false} ReplayPrefix(k: Keyring, records: seq<Record>, n: nat)
    requires Replay(k, records).Some? && n <= |records|
    ensures Replay(k, records[..n]).Some?
    decreases |records|
  {
    if n < |records| {
      ReplayPrefix(k, records[..|records| - 1], n);
      assert records[..|records| - 1][..n] == records[..n];
    } else {
      assert records[..n] == records;
    }
  }

  // ---- what every accepted journal satisfies ------------------------------------

  /** Cancelled intents are released, released leases were seen, the pending holds
      are unreleased leases under their own identity, and the length of the journal
      is fixed by the three sets. */
  ghost predicate Sane(h: History) {
    && h.cancelled <= h.released <= h.seen.Keys && |h.seen| <= HISTORY
    && h.count == |h.seen| + |h.released| - |h.cancelled|
    && 0 <= h.lastWall
    && (h.count == 0 ==> h == Blank)
    && (h.count > 0 ==> h.previous.id != "")
    && (forall id :: id in h.seen ==> h.seen[id].id == id)
    && (forall id :: id in h.pending ==> GoodHold(h, id, h.pending[id]))
  }

  ghost predicate GoodHold(h: History, id: Identity, p: Hold) {
    && p.lease.identity == id && p.lease.id in h.seen && h.seen[p.lease.id] == p.lease && p.lease.id !in h.released
    && p.boot.id != "" && p.boot.nanos >= 0
    && (!p.lease.manual ==> 481 <= p.lease.expiresAt - p.acceptedAt <= 605)
  }

  lemma BlockLength(node: string, h: History, c: Command, r: Record)
    requires ValidCommand(node, c) && Timely(h, c, r) && c.operation == Block && !c.lease.manual
    ensures 481 <= c.lease.expiresAt - r.acceptedAt <= 605
  {
    hide Hex;
  }

  lemma NotedSets(h: History, c: Command, r: Record)
    requires Sane(h) && Permitted(h, c, r)
    ensures var v := Noted(h, c, r);
            && v.cancelled <= v.released <= v.seen.Keys && |v.seen| <= HISTORY
            && v.count == |v.seen| + |v.released| - |v.cancelled|
            && (forall id :: id in v.seen ==> v.seen[id].id == id)
  {
    hide GoodHold;
    if c.operation == Cancel {
      assert c.lease.id !in h.released && c.lease.id !in h.cancelled;
    }
  }

  lemma NotedHolds(h: History, c: Command, r: Record, id: Identity)
    requires Sane(h) && Permitted(h, c, r) && r.boot.id != "" && r.boot.nanos >= 0
    requires c.operation == Block && !c.lease.manual ==> 481 <= c.lease.expiresAt - r.acceptedAt <= 605
    requires c.operation != Unknown
    requires id in Noted(h, c, r).pending
    ensures GoodHold(Noted(h, c, r), id, Noted(h, c, r).pending[id])
  {
    if id in h.pending { assert GoodHold(h, id, h.pending[id]); }
  }

  lemma NotedSane(k: Keyring, h: History, r: Record)
    requires Sane(h) && Accepts(k, h, r)
    ensures Sane(Noted(h, Verify(k, r.envelope).value, r))
  {
    var c := Verify(k, r.envelope).value;
    var v := Noted(h, c, r);
    NotedSets(h, c, r);
    if c.operation == Block && !c.lease.manual { BlockLength(k.node, h, c, r); }
    hide ValidLease, Permitted, GoodHold;
    forall id | id in v.pending ensures GoodHold(v, id, v.pending[id]) { NotedHolds(h, c, r, id); }
  }

  lemma {:induction false} ReplaySane(k: Keyring, records: seq<Record>)
    requires Replay(k, records).Some?
    ensures Sane(Replay(k, records).value) && Replay(k, records).value.count == |records|
    ensures records != [] ==> Replay(k, records).value.previous == records[|records| - 1].boot
  {
    if records != [] {
      ReplaySane(k, records[..|records| - 1]);
      NotedSane(k, Replay(k, records[..|records| - 1]).value, records[|records| - 1]);
    }
  }

  /** The journal can never reach the limit of 10000 records checked at startup. */
  lemma JournalBounded(k: Keyring, records: seq<Record>)
    requires Replay(k, records).Some?
    ensures |records| <= 2 * HISTORY < 10000
  {
    ReplaySane(k, records);
    var h := Replay(k, records).value;
    SubsetSize(h.released, h.seen.Keys);
    assert |h.seen.Keys| == |h.seen|;
  }

  lemma SubsetSize<T>(a: set<T>, b: set<T>)
    requires a <= b
    ensures |a| <= |b|
  {
    assert b == a + (b - a);
  }

  /** Seen and released only grow along the journal. */
  lemma {:induction false} HistoryGrows(k: Keyring, records: seq<Record>, n: nat)
    requires Replay(k, records).Some? && n <= |records|
    ensures Replay(k, records[..n]).Some?
    ensures var h, v := Replay(k, records[..n]).value, Replay(k, records).value;
            h.released <= v.released && (forall id :: id in h.seen ==> id in v.seen && v.seen[id] == h.seen[id])
    decreases |records|
  {
    if n < |records| {
      HistoryGrows(k, records[..|records| - 1], n);
      assert records[..|records| - 1][..n] == records[..n];
    } else {
      assert records[..n] == records;
    }
  }

  function CommandAt(k: Keyring, records: seq<Record>, i: nat): Command
    requires i < |records| && Replay(k, records).Some?
  {
    ReplayStep(k, records, i);
    Verify(k, records[i].envelope).value
  }

  lemma ReplayStep(k: Keyring, records: seq<Record>, i: nat)
    requires i < |records| && Replay(k, records).Some?
    ensures Replay(k, records[..i]).Some? && Accepts(k, Replay(k, records[..i]).value, records[i])
    ensures Replay(k, records[..i + 1]) == Some(Noted(Replay(k, records[..i]).value, Verify(k, records[i].envelope).value, records[i]))
  {
    ReplayPrefix(k, records, i + 1);
    assert records[..i + 1] == records[..i] + [records[i]];
    ReplayOn(k, records[..i], records[i]);
  }

  /** Each lease is opened (blocked or cancelled) at most once and released at most
      once, and a release follows the block of exactly the same lease. */
  lemma OncePerLease(k: Keyring, records: seq<Record>, i: nat, j: nat)
    requires Replay(k, records).Some? && i < j < |records|
    requires CommandAt(k, records, i).lease.id == CommandAt(k, records, j).lease.id
    ensures CommandAt(k, records, i).operation == Block && CommandAt(k, records, j).operation == Unblock
    ensures CommandAt(k, records, i).lease == CommandAt(k, records, j).lease
  {
    ReplayStep(k, records, i);
    ReplayStep(k, records, j);
    HistoryGrows(k, records[..j], i + 1);
    assert records[..j][..i + 1] == records[..i + 1];
    Opened(k, Replay(k, records[..i]).value, records[i]);
    Opened(k, Replay(k, records[..j]).value, records[j]);
  }

  lemma Opened(k: Keyring, h: History, r: Record)
    requires Accepts(k, h, r)
    ensures var c := Verify(k, r.envelope).value;
            var v := Noted(h, c, r);
            && c.lease.id in v.seen && v.seen[c.lease.id] == c.lease
            && (c.operation != Unblock ==> c.lease.id !in h.seen)
            && (c.operation == Unblock ==> c.lease.id in h.seen && h.seen[c.lease.id] == c.lease && c.lease.id !in h.released)
            && (c.operation != Block ==> c.lease.id in v.released)
            && (c.operation != Unknown)
  {
    hide ValidLease;
  }

  /** From acceptance to expiry, every temporary hold has 481 to 605 seconds. */
  lemma HoldLength(k: Keyring, records: seq<Record>, i: nat)
    requires Replay(k, records).Some? && i < |records|
    requires CommandAt(k, records, i).operation == Block && !CommandAt(k, records, i).lease.manual
    ensures 481 <= CommandAt(k, records, i).lease.expiresAt - records[i].acceptedAt <= 605
  {
    ReplayStep(k, records, i);
    BlockLength(k.node, Replay(k, records[..i]).value, CommandAt(k, records, i), records[i]);
  }

  /** The two ends of that range are reached. */
  lemma HoldLengthTight(node: string, id: string, identity: Identity)
    requires Hex(id, 16) && identity.uid > 0 && Hex(identity.credential, 32)
    ensures var c := Command(1, node, 1, 100, 160, Block, Lease(id, identity, 40, 640, false));
            ValidCommand(node, c) && Timely(Blank, c, Record(Envelope("", ""), 159, Stamp("b", 0))) && c.lease.expiresAt - 159 == 481
    ensures var c := Command(1, node, 1, 100, 160, Block, Lease(id, identity, 100, 700, false));
            ValidCommand(node, c) && Timely(Blank, c, Record(Envelope("", ""), 95, Stamp("b", 0))) && c.lease.expiresAt - 95 == 605
  {
  }

  // ---- what is pending -------------------------------------------------------------

  /** Record `i` is the last block of its identity and its lease is not released. */
  ghost predicate Standing(k: Keyring, records: seq<Record>, i: nat)
    requires Replay(k, records).Some?
  {
    && i < |records| && CommandAt(k, records, i).operation == Block
    && CommandAt(k, records, i).lease.id !in Replay(k, records).value.released
    && forall j :: i < j < |records| && CommandAt(k, records, j).operation == Block ==> CommandAt(k, records, j).lease.identity != CommandAt(k, records, i).lease.identity
  }

  function HoldOf(k: Keyring, records: seq<Record>, i: nat): Hold
    requires Replay(k, records).Some? && i < |records|
  {
    Hold(CommandAt(k, records, i).lease, records[i].acceptedAt, records[i].boot)
  }

  ghost predicate Recorded(k: Keyring, records: seq<Record>, id: Identity, p: Hold)
    requires Replay(k, records).Some?
  {
    exists i :: Standing(k, records, i) && CommandAt(k, records, i).lease.identity == id && HoldOf(k, records, i) == p
  }

  /** The pending holds are exactly the standing blocks of the journal. */
  lemma PendingExact(k: Keyring, records: seq<Record>, id: Identity, p: Hold)
    requires Replay(k, records).Some?
    ensures (id in Replay(k, records).value.pending && Replay(k, records).value.pending[id] == p) <==> Recorded(k, records, id, p)
  {
    var h := Replay(k, records).value;
    if id in h.pending { PendingStands(k, records, id); }
    if i :| Standing(k, records, i) && CommandAt(k, records, i).lease.identity == id && HoldOf(k, records, i) == p {
      StandingPending(k, records, i);
    }
  }

  /** How one record changes what is pending. */
  lemma NotedPending(k: Keyring, h: History, r: Record)
    requires Sane(h) && Accepts(k, h, r)
    ensures var c := Verify(k, r.envelope).value;
            var v := Noted(h, c, r);
            && h.released <= v.released
            && (c.operation == Block ==> c.lease.identity in v.pending && v.pending[c.lease.identity] == Hold(c.lease, r.acceptedAt, r.boot) && c.lease.id !in v.released)
            && forall id :: !(c.operation == Block && c.lease.identity == id) ==>
                 ((id in v.pending) <==> (id in h.pending && h.pending[id].lease.id !in v.released)) && (id in v.pending ==> v.pending[id] == h.pending[id])
  {
    var c := Verify(k, r.envelope).value;
    var v := Noted(h, c, r);
    Opened(k, h, r);
    hide Verify, ValidCommand, Timely;
    forall id | !(c.operation == Block && c.lease.identity == id)
      ensures ((id in v.pending) <==> (id in h.pending && h.pending[id].lease.id !in v.released)) && (id in v.pending ==> v.pending[id] == h.pending[id])
    {
      if id in h.pending { assert GoodHold(h, id, h.pending[id]); }
    }
  }

  lemma {:induction false} PendingStands(k: Keyring, records: seq<Record>, id: Identity)
    requires Replay(k, records).Some? && id in Replay(k, records).value.pending
    ensures Recorded(k, records, id, Replay(k, records).value.pending[id])
  {
    var n := |records| - 1;
    var front := records[..n];
    var h := Replay(k, front).value;
    ReplaySane(k, front);
    NotedPending(k, h, records[n]);
    var c := CommandAt(k, records, n);
    if c.operation == Block && c.lease.identity == id {
      assert Standing(k, records, n);
    } else {
      PendingStands(k, front, id);
      var i :| Standing(k, front, i) && CommandAt(k, front, i).lease.identity == id && HoldOf(k, front, i) == h.pending[id];
      StandsOn(k, records, i);
      assert Standing(k, records, i);
    }
  }

  /** A block standing before the last record stands after it exactly when that
      record neither blocks the same identity nor releases it. */
  lemma StandsOn(k: Keyring, records: seq<Record>, i: nat)
    requires Replay(k, records).Some? && i < |records| - 1
    ensures var n := |records| - 1;
            && Replay(k, records[..n]).Some? && CommandAt(k, records[..n], i) == CommandAt(k, records, i)
            && Replay(k, records[..n]).value.released <= Replay(k, records).value.released
            && (Standing(k, records, i) <==>
                Standing(k, records[..n], i) && CommandAt(k, records, i).lease.id !in Replay(k, records).value.released
                && !(CommandAt(k, records, n).operation == Block && CommandAt(k, records, n).lease.identity == CommandAt(k, records, i).lease.identity))
  {
    var n := |records| - 1;
    var front := records[..n];
    ReplaySane(k, front);
    NotedPending(k, Replay(k, front).value, records[n]);
    hide Replay, Sane, Noted, Verify, Accepts;
    SameCommands(k, records);
  }

  lemma SameCommands(k: Keyring, records: seq<Record>)
    requires Replay(k, records).Some? && records != []
    ensures Replay(k, records[..|records| - 1]).Some?
    ensures forall j {:trigger CommandAt(k, records, j)} {:trigger CommandAt(k, records[..|records| - 1], j)} ::
              0 <= j < |records| - 1 ==> CommandAt(k, records[..|records| - 1], j) == CommandAt(k, records, j)
  {
  }

  lemma {:induction false} StandingPending(k: Keyring, records: seq<Record>, i: nat)
    requires Replay(k, records).Some? && Standing(k, records, i)
    ensures CommandAt(k, records, i).lease.identity in Replay(k, records).value.pending
    ensures Replay(k, records).value.pending[CommandAt(k, records, i).lease.identity] == HoldOf(k, records, i)
  {
    var n := |records| - 1;
    var front := records[..n];
    ReplaySane(k, front);
    NotedPending(k, Replay(k, front).value, records[n]);
    if i < n {
      StandsOn(k, records, i);
      StandingPending(k, front, i);
    }
  }
}
