/** The speed limiter of limiter/limiter.go and limiter/dynamic.go: one bandwidth
    bucket per owner, cached over limit records that all credentials of the owner
    share. */
module Limiters {
  import opened Counters

  const TWO63: int := 0x8000_0000_0000_0000

  // ---- rates -----------------------------------------------------------------------

  /** `determineSpeedLimit`. */
  function Determine(a: int, b: int): int {
    if a == 0 || b == 0 then
      if a > b then a else if a < b then b else 0
    else if a > b then b
    else a
  }

  /** The least of the limits that are set, zero meaning not set. */
  predicate LeastSet(r: int, a: int, b: int) {
    if a == 0 && b == 0 then r == 0
    else r != 0 && (r == a || r == b) && (a != 0 ==> r <= a) && (b != 0 ==> r <= b)
  }

  /** The code meets its comment exactly when no limit is negative while the other is
      not set. */
  lemma DetermineLeast(a: int, b: int)
    ensures LeastSet(Determine(a, b), a, b) <==> !(a == 0 && b < 0) && !(a < 0 && b == 0)
  {
  }

  lemma DetermineNegative()
    ensures Determine(0, -5) == 0 && !LeastSet(0, 0, -5)
  {
  }

  /** Two's complement 64-bit wrap-around. */
  function Wrap(x: int): int { (x + TWO63) % (2 * TWO63) - TWO63 }

  /** Division truncating toward zero. */
  function Truncated(x: int, d: int): int
    requires d > 0
  {
    if x >= 0 then x / d else -(-x / d)
  }

  /** Megabits per second to bytes per second. */
  function BytesPerSecond(limit: int): int { Truncated(Wrap(limit * 1000000), 8) }

  /** The conversion is exact exactly when the multiplication does not wrap. */
  lemma BytesExact(limit: int)
    ensures BytesPerSecond(limit) == limit * 125000 <==> -TWO63 <= limit * 1000000 < TWO63
  {
    var x := limit * 1000000;
    var k := (x + TWO63) / (2 * TWO63);
    assert Wrap(x) == x - k * (2 * TWO63);
    assert Wrap(x) == 8 * (limit * 125000 - k * 0x2000_0000_0000_0000);
    EighthExact(limit * 125000 - k * 0x2000_0000_0000_0000);
  }

  lemma EighthExact(y: int)
    ensures Truncated(8 * y, 8) == y
  {
  }

  // ---- the limiter as a value ---------------------------------------------------------

  datatype Limits = Limits(speed: int, device: int, dynamic: int, expire: int)

  datatype User = User(id: int, uuid: string, speed: int, device: int)

  /** `online` are the addresses seen per credential in this period, `gone` those of the
      previous one that have not come back, `alive` the devices the panel counts per
      owner. */
  datatype Devices = Devices(online: map<string, map<string, int>>, gone: map<string, int>, alive: map<int, int>)

  /** `rates` are the rates of the cached buckets. */
  datatype State = State(node: int, owners: map<int, Limits>, creds: map<string, int>, rates: map<int, int>, devices: Devices)

  // ---- devices -----------------------------------------------------------------------

  function Trimmed(ip: string): string { if "::ffff:" <= ip then ip[7..] else ip }

  function Alive(d: Devices, uid: int): int { if uid in d.alive then d.alive[uid] else 0 }

  function Online(d: Devices, uuid: string): map<string, int> { if uuid in d.online then d.online[uuid] else map[] }

  /** The device-limit part of `CheckLimit`: the devices afterwards, and whether the
      connection is refused. */
  function Admit(d: Devices, uuid: string, uid: int, ip: string, limit: int): (Devices, bool) {
    var seen := Online(d, uuid);
    if ip in seen then (d, false)
    else if ip in d.gone then
      (d.(online := d.online[uuid := seen[ip := uid]], gone := if d.gone[ip] == uid then d.gone - {ip} else d.gone), false)
    else if limit > 0 && limit <= Alive(d, uid) then (d, true)
    else (d.(online := d.online[uuid := seen[ip := uid]]), false)
  }

  /** A connection is refused exactly when it comes from an address that is new for its
      credential and was not online in the previous period, and the owner has used up
      its devices; a refusal leaves no trace, anything else is on record. */
  lemma AdmitExact(d: Devices, uuid: string, uid: int, ip: string, limit: int)
    ensures var r := Admit(d, uuid, uid, ip, limit);
            && (r.1 <==> ip !in Online(d, uuid) && ip !in d.gone && 0 < limit <= Alive(d, uid))
            && (r.1 ==> r.0 == d) && (!r.1 ==> ip in Online(r.0, uuid)) && r.0.alive == d.alive
            && (forall other :: other != uuid ==> Online(r.0, other) == Online(d, other))
            && (forall x :: x in Online(d, uuid) ==> x in Online(r.0, uuid) && Online(r.0, uuid)[x] == Online(d, uuid)[x])
            && (!r.1 && ip !in Online(d, uuid) ==> Online(r.0, uuid) == Online(d, uuid)[ip := uid])
            && (forall x :: x in r.0.gone <==> x in d.gone && !(x == ip && ip !in Online(d, uuid) && d.gone[ip] == uid))
            && (forall x :: x in r.0.gone ==> r.0.gone[x] == d.gone[x])
  {
  }

  /** The rate an owner's bucket should have now. */
  function Rate(node: int, l: Limits): int { BytesPerSecond(Determine(node, Determine(l.speed, l.dynamic))) }

  /** Every credential has its owner's record, and every cached bucket has the rate
      that the node limit and its owner's current limits give. */
  ghost predicate Coherent(s: State) {
    && (forall u :: u in s.creds ==> s.creds[u] in s.owners)
    && (forall id :: id in s.rates ==> id in s.owners && s.rates[id] == Rate(s.node, s.owners[id]) > 0)
  }

  predicate Mentions(users: seq<User>, id: int) { exists i :: 0 <= i < |users| && users[i].id == id }

  function Uuids(users: seq<User>): set<string> { set i | 0 <= i < |users| :: users[i].uuid }

  /** The owner goes when it has no credential left and none coming. */
  function DropOwner(s: State, id: int, added: seq<User>): State {
    if (exists u :: u in s.creds && s.creds[u] == id) || Mentions(added, id) then s
    else s.(owners := s.owners - {id}, rates := s.rates - {id}, devices := s.devices.(alive := s.devices.alive - {id}))
  }

  function DropOwners(s: State, removed: seq<User>, added: seq<User>): State
    decreases |removed|
  {
    if removed == [] then s else DropOwner(DropOwners(s, removed[..|removed| - 1], added), removed[|removed| - 1].id, added)
  }

  function OwnerLimits(s: State, id: int): Limits { if id in s.owners then s.owners[id] else Limits(0, 0, 0, 0) }

  function AddUser(s: State, u: User): State {
    var l := OwnerLimits(s, u.id);
    s.(owners := s.owners[u.id := l.(speed := u.speed, device := u.device)], creds := s.creds[u.uuid := u.id],
       rates := if l.speed != u.speed then s.rates - {u.id} else s.rates)
  }

  function AddUsers(s: State, added: seq<User>): State
    decreases |added|
  {
    if added == [] then s else AddUser(AddUsers(s, added[..|added| - 1]), added[|added| - 1])
  }

  /** Credentials go with their online addresses. */
  function Forget(s: State, uuids: set<string>): State {
    s.(creds := s.creds - uuids, devices := s.devices.(online := s.devices.online - uuids))
  }

  function Update(s: State, added: seq<User>, deleted: seq<User>): State {
    AddUsers(DropOwners(Forget(s, Uuids(deleted)), deleted, added), added)
  }

  function SetDynamic(s: State, uuid: string, limit: int, expire: int): Option<State> {
    if uuid !in s.creds || s.creds[uuid] !in s.owners then None
    else
      var id := s.creds[uuid];
      Some(s.(owners := s.owners[id := s.owners[id].(dynamic := limit, expire := expire)], rates := s.rates - {id}))
  }

  datatype Verdict = Rejected | Unlimited | Limited(rate: int)

  predicate Expires(l: Limits, now: int) { l.expire < now && l.expire != 0 }

  /** An expired dynamic limit is cleared together with the cached bucket. */
  function Expire(s: State, id: int, now: int): State
    requires id in s.owners
  {
    if Expires(s.owners[id], now) then
      s.(owners := s.owners[id := s.owners[id].(dynamic := 0, expire := 0)], rates := s.rates - {id})
    else s
  }

  /** The device part of a check; it is skipped for some UDP traffic. */
  function CheckDevices(s: State, uuid: string, id: int, ip: string, counted: bool): (Devices, bool)
    requires id in s.owners
  {
    if counted then Admit(s.devices, uuid, id, Trimmed(ip), s.owners[id].device) else (s.devices, false)
  }

  /** `CheckLimit` once the limits are current. */
  function Answer(s: State, uuid: string, id: int, ip: string, counted: bool): (State, Verdict)
    requires id in s.owners
  {
    var a := CheckDevices(s, uuid, id, ip, counted);
    var t := s.(devices := a.0);
    var rate := Rate(t.node, t.owners[id]);
    if a.1 then (t, Rejected)
    else if rate <= 0 then (t, Unlimited)
    else if id in t.rates then (t, Limited(t.rates[id]))
    else (t.(rates := t.rates[id := rate]), Limited(rate))
  }

  /** `CheckLimit`. */
  function Check(s: State, uuid: string, ip: string, counted: bool, now: int): (State, Verdict) {
    if uuid !in s.creds || s.creds[uuid] !in s.owners then (s, Rejected)
    else Answer(Expire(s, s.creds[uuid], now), uuid, s.creds[uuid], ip, counted)
  }

  /** A dynamic limit reaches exactly the owner of a known credential, and all its
      credentials; everything else about the owner, and every other owner, stays. */
  lemma DynamicExactly(s: State, uuid: string, limit: int, expire: int, id: int)
    requires Coherent(s)
    ensures var t := SetDynamic(s, uuid, limit, expire);
            && (t.Some? <==> uuid in s.creds)
            && (t.Some? && id in s.owners ==>
                  id in t.value.owners
                  && t.value.owners[id] == if s.creds[uuid] == id then Limits(s.owners[id].speed, s.owners[id].device, limit, expire) else s.owners[id])
            && (t.Some? ==> t.value.creds == s.creds && t.value.owners.Keys == s.owners.Keys && t.value.devices == s.devices && s.creds[uuid] !in t.value.rates)
  {
    hide Rate;
  }

  // ---- what the verdict says -----------------------------------------------------------

  /** `m` is the least of the three limits that are set; zero when none is. */
  predicate LeastOf(m: int, a: int, b: int, c: int) {
    if a == 0 && b == 0 && c == 0 then m == 0
    else m != 0 && (m == a || m == b || m == c) && (a != 0 ==> m <= a) && (b != 0 ==> m <= b) && (c != 0 ==> m <= c)
  }

  /** The code finds the least of three limits exactly when no negative one meets one
      that is not set: the owner's two, all owner's limits against a missing node limit,
      a node limit against missing owner's limits. */
  lemma LeastExactly(node: int, speed: int, dynamic: int)
    ensures LeastOf(Determine(node, Determine(speed, dynamic)), node, speed, dynamic) <==>
            && !(speed == 0 && dynamic < 0) && !(speed < 0 && dynamic == 0)
            && !(node == 0 && (speed < 0 || dynamic < 0)) && !(node < 0 && speed == 0 && dynamic == 0)
  {
  }

  /** The verdict is that of the least limit that is set: none without one (or with a
      negative one), 125000 bytes per second for each of its megabits otherwise. */
  ghost predicate Fair(v: Verdict, node: int, speed: int, dynamic: int) {
    forall m :: LeastOf(m, node, speed, dynamic) ==> v == if m > 0 then Limited(125000 * m) else Unlimited
  }

  /** The dynamic limit in force. */
  function Dynamic(l: Limits, now: int): int { if l.expire != 0 && l.expire < now then 0 else l.dynamic }

  predicate Fits(limit: int) { -TWO63 <= limit * 1000000 < TWO63 }

  function Least(node: int, speed: int, dynamic: int): int
  {
    var x := if speed == 0 || (dynamic != 0 && dynamic < speed) then dynamic else speed;
    if x == 0 || (node != 0 && node < x) then node else x
  }

  lemma LeastIs(node: int, speed: int, dynamic: int, m: int)
    ensures LeastOf(m, node, speed, dynamic) <==> m == Least(node, speed, dynamic)
  {
  }

  /** An IPv4 address is the same in its IPv6 form. */
  lemma TrimmedExactly(ip: string)
    ensures Trimmed("::ffff:" + ip) == ip && (|ip| < 7 || ip[..7] != "::ffff:" ==> Trimmed(ip) == ip)
  {
    assert ("::ffff:" + ip)[7..] == ip;
    if "::ffff:" <= ip { assert ip[..7] == "::ffff:"; }
  }

  /** A credential is turned away exactly when it is unknown or its owner's devices are
      used up and the address is new. */
  lemma RejectedExactly(s: State, uuid: string, ip: string, counted: bool, now: int)
    requires Coherent(s)
    ensures Check(s, uuid, ip, counted, now).1 == Rejected <==>
            uuid !in s.creds
            || (counted && Trimmed(ip) !in Online(s.devices, uuid) && Trimmed(ip) !in s.devices.gone
                && 0 < s.owners[s.creds[uuid]].device <= Alive(s.devices, s.creds[uuid]))
  {
    hide Rate, Trimmed;
    if uuid in s.creds { AdmitExact(s.devices, uuid, s.creds[uuid], Trimmed(ip), s.owners[s.creds[uuid]].device); }
    hide Admit;
  }

  /** What is not turned away gets the rate of its current limits, cached or not. */
  lemma RateInForce(s: State, uuid: string, ip: string, counted: bool, now: int)
    requires Coherent(s) && uuid in s.creds && Check(s, uuid, ip, counted, now).1 != Rejected
    ensures var l := s.owners[s.creds[uuid]];
            var rate := BytesPerSecond(Determine(s.node, Determine(l.speed, Dynamic(l, now))));
            Check(s, uuid, ip, counted, now).1 == if rate > 0 then Limited(rate) else Unlimited
  {
    hide BytesPerSecond, Determine, CheckDevices;
  }

  lemma BytesSign(x: int)
    requires Fits(x)
    ensures BytesPerSecond(x) == 125000 * x
  {
    BytesExact(x);
  }

  lemma FairRate(v: Verdict, node: int, speed: int, dynamic: int, x: int, rate: int)
    requires x == Determine(node, Determine(speed, dynamic)) && rate == 125000 * x && v == if rate > 0 then Limited(rate) else Unlimited
    ensures Fair(v, node, speed, dynamic) <==> !(node > 0 && ((speed == 0 && dynamic < 0) || (speed < 0 && dynamic == 0)))
  {
    LeastIs(node, speed, dynamic, Least(node, speed, dynamic));
    forall m | LeastOf(m, node, speed, dynamic) ensures m == Least(node, speed, dynamic) { LeastIs(node, speed, dynamic, m); }
    hide LeastOf;
    var m := Least(node, speed, dynamic);
    assert Fair(v, node, speed, dynamic) <==> v == if m > 0 then Limited(125000 * m) else Unlimited;
  }

  /** The answer of `CheckLimit` is fair, as long as no multiplication wraps, exactly
      unless a positive node limit stands beside a single negative limit of the owner;
      and for limits that are not negative exactly when the multiplication of the least
      one does not wrap. */
  lemma FairExactly(s: State, uuid: string, ip: string, counted: bool, now: int)
    requires Coherent(s) && uuid in s.creds && Check(s, uuid, ip, counted, now).1 != Rejected
    ensures var v, l := Check(s, uuid, ip, counted, now).1, s.owners[s.creds[uuid]];
            var node, speed, dynamic := s.node, l.speed, Dynamic(l, now);
            && (Fits(node) && Fits(speed) && Fits(dynamic) ==>
                  (Fair(v, node, speed, dynamic) <==> !(node > 0 && ((speed == 0 && dynamic < 0) || (speed < 0 && dynamic == 0)))))
            && (node >= 0 && speed >= 0 && dynamic >= 0 ==>
                  (Fair(v, node, speed, dynamic) <==> forall m :: LeastOf(m, node, speed, dynamic) ==> Fits(m)))
  {
    var v, l := Check(s, uuid, ip, counted, now).1, s.owners[s.creds[uuid]];
    var node, speed, dynamic := s.node, l.speed, Dynamic(l, now);
    RateInForce(s, uuid, ip, counted, now);
    hide Check, Coherent, BytesPerSecond, Dynamic;
    var x := Determine(node, Determine(speed, dynamic));
    if Fits(node) && Fits(speed) && Fits(dynamic) {
      BytesSign(x);
      FairRate(v, node, speed, dynamic, x, BytesPerSecond(x));
    }
    if node >= 0 && speed >= 0 && dynamic >= 0 {
      FairPlain(v, node, speed, dynamic, x);
    }
  }

  lemma FairPlain(v: Verdict, node: int, speed: int, dynamic: int, x: int)
    requires node >= 0 && speed >= 0 && dynamic >= 0 && x == Determine(node, Determine(speed, dynamic))
    requires v == if BytesPerSecond(x) > 0 then Limited(BytesPerSecond(x)) else Unlimited
    ensures Fair(v, node, speed, dynamic) <==> forall m :: LeastOf(m, node, speed, dynamic) ==> Fits(m)
  {
    assert x == Least(node, speed, dynamic);
    forall m ensures LeastOf(m, node, speed, dynamic) <==> m == x { LeastIs(node, speed, dynamic, m); }
    BytesExact(x);
    hide LeastOf, BytesPerSecond, Determine, Least;
    assert Fits(x) <==> BytesPerSecond(x) == x * 125000;
  }

  /** A wrapped product: a node limit of 9223372036855 megabits does not limit at all. */
  lemma WrappedRate()
    ensures !Fits(9223372036855) && BytesPerSecond(9223372036855) < 0
  {
  }

  /** One user of the initial list. */
  function Load(s: State, u: User): State {
    var l := OwnerLimits(s, u.id);
    s.(owners := s.owners[u.id := l.(speed := if u.speed != 0 then u.speed else l.speed, device := if u.device != 0 then u.device else l.device)],
       creds := s.creds[u.uuid := u.id])
  }

  function LoadAll(s: State, users: seq<User>): State
    decreases |users|
  {
    if users == [] then s else Load(LoadAll(s, users[..|users| - 1]), users[|users| - 1])
  }

  lemma {:induction false} LoadedCoherent(s: State, users: seq<User>)
    requires Coherent(s) && s.rates == map[]
    ensures Coherent(LoadAll(s, users)) && LoadAll(s, users).rates == map[]
    decreases |users|
  {
    if users != [] { LoadedCoherent(s, users[..|users| - 1]); }
    hide Rate;
  }

  /** `value` is the last one set among the owner's credentials, zero if none is. */
  ghost predicate LastSet(users: seq<User>, id: int, value: int, pick: User -> int) {
    if value == 0 then forall i :: 0 <= i < |users| && users[i].id == id ==> pick(users[i]) == 0
    else exists i :: 0 <= i < |users| && users[i].id == id && pick(users[i]) == value && forall j :: i < j < |users| && users[j].id == id ==> pick(users[j]) == 0
  }

  lemma LastSetOn(users: seq<User>, id: int, value: int, pick: User -> int)
    requires users != [] && LastSet(users[..|users| - 1], id, value, pick)
    ensures var u := users[|users| - 1];
            LastSet(users, id, if u.id == id && pick(u) != 0 then pick(u) else value, pick)
  {
    var n := |users| - 1;
    var front, u := users[..n], users[n];
    if u.id == id && pick(u) != 0 {
      assert pick(users[n]) == pick(u);
    } else if value != 0 {
      var i :| 0 <= i < |front| && front[i].id == id && pick(front[i]) == value && forall j :: i < j < |front| && front[j].id == id ==> pick(front[j]) == 0;
      forall j | i < j < |users| && users[j].id == id ensures pick(users[j]) == 0 { if j < n { assert front[j] == users[j]; } }
      assert users[i] == front[i];
    } else {
      forall i | 0 <= i < |users| && users[i].id == id ensures pick(users[i]) == 0 { if i < n { assert front[i] == users[i]; } }
    }
  }

  /** An owner's initial speed and device limit are the last ones set among its
      credentials. */
  lemma {:induction false} LoadedLimits(s: State, users: seq<User>, id: int)
    requires s.owners == map[]
    ensures var l := OwnerLimits(LoadAll(s, users), id);
            LastSet(users, id, l.speed, (u: User) => u.speed) && LastSet(users, id, l.device, (u: User) => u.device) && l.dynamic == 0 && l.expire == 0
    decreases |users|
  {
    if users != [] {
      var front := users[..|users| - 1];
      var l := OwnerLimits(LoadAll(s, front), id);
      LoadedLimits(s, front, id);
      LastSetOn(users, id, l.speed, (u: User) => u.speed);
      LastSetOn(users, id, l.device, (u: User) => u.device);
      hide LastSet;
    }
  }

  lemma {:induction false} LoadedOwners(s: State, users: seq<User>, id: int)
    requires s.owners == map[]
    ensures id in LoadAll(s, users).owners <==> Mentions(users, id)
    decreases |users|
  {
    if users != [] {
      var n := |users| - 1;
      LoadedOwners(s, users[..n], id);
      if Mentions(users, id) && users[n].id != id {
        var i :| 0 <= i < |users| && users[i].id == id;
        assert users[..n][i].id == id;
      }
      if i :| 0 <= i < n && users[..n][i].id == id { assert users[i].id == id; }
      if users[n].id == id { assert Mentions(users, id); }
    }
  }

  // ---- what an update leaves ------------------------------------------------------------

  /** User `i` is the last of the list with this owner. */
  predicate LastOf(users: seq<User>, i: int, id: int) { 0 <= i < |users| && users[i].id == id && forall j :: i < j < |users| ==> users[j].id != id }

  /** User `i` is the last of the list with this credential. */
  predicate LastWith(users: seq<User>, i: int, uuid: string) {
    0 <= i < |users| && users[i].uuid == uuid && forall j :: i < j < |users| ==> users[j].uuid != uuid
  }

  lemma LastOfOn(users: seq<User>, i: int, id: int)
    requires users != []
    ensures LastOf(users, i, id) <==> if users[|users| - 1].id == id then i == |users| - 1 else LastOf(users[..|users| - 1], i, id)
  {
  }

  lemma AddedOne(s: State, u: User, id: int)
    ensures var t := AddUser(s, u);
            && OwnerLimits(t, id) == (if u.id == id then OwnerLimits(s, id).(speed := u.speed, device := u.device) else OwnerLimits(s, id))
            && (id in t.owners <==> id in s.owners || u.id == id) && t.node == s.node && t.devices == s.devices
  {
  }

  lemma {:induction false} AddedOwners(s: State, added: seq<User>, id: int)
    ensures var t := AddUsers(s, added);
            && (forall i :: LastOf(added, i, id) ==> OwnerLimits(t, id) == OwnerLimits(s, id).(speed := added[i].speed, device := added[i].device))
            && (!Mentions(added, id) ==> OwnerLimits(t, id) == OwnerLimits(s, id))
            && (id in t.owners <==> id in s.owners || Mentions(added, id))
            && OwnerLimits(t, id).dynamic == OwnerLimits(s, id).dynamic && OwnerLimits(t, id).expire == OwnerLimits(s, id).expire
            && t.node == s.node && t.devices == s.devices
    decreases |added|
  {
    if added != [] {
      var n := |added| - 1;
      var front := added[..n];
      AddedOwners(s, front, id);
      MentionsOn(added, id);
      AddedOne(AddUsers(s, front), added[n], id);
      forall i | LastOf(added, i, id)
        ensures OwnerLimits(AddUsers(s, added), id) == OwnerLimits(s, id).(speed := added[i].speed, device := added[i].device)
      {
        LastOfOn(added, i, id);
        hide AddUser, OwnerLimits;
      }
      hide AddUser, OwnerLimits, Mentions, LastOf;
    }
  }

  lemma {:induction false} AddedCreds(s: State, added: seq<User>, uuid: string)
    ensures var t := AddUsers(s, added);
            && (forall i :: LastWith(added, i, uuid) ==> uuid in t.creds && t.creds[uuid] == added[i].id)
            && (uuid !in Uuids(added) ==> (uuid in t.creds <==> uuid in s.creds) && (uuid in t.creds ==> t.creds[uuid] == s.creds[uuid]))
    decreases |added|
  {
    if added != [] {
      var n := |added| - 1;
      var front := added[..n];
      AddedCreds(s, front, uuid);
      forall i | LastWith(added, i, uuid) && i != n ensures LastWith(front, i, uuid) { }
      if uuid !in Uuids(added) {
        assert added[n].uuid in Uuids(added);
        forall i | 0 <= i < n ensures front[i].uuid != uuid { assert added[i].uuid in Uuids(added); }
        assert uuid !in Uuids(front);
      }
    }
  }

  /** The owner is dropped: named among the removed, without credential left or coming. */
  predicate Leaves(s: State, removed: seq<User>, added: seq<User>, id: int) {
    Mentions(removed, id) && !Mentions(added, id) && forall u :: u in s.creds ==> s.creds[u] != id
  }

  lemma {:induction false} DroppedOwners(s: State, removed: seq<User>, added: seq<User>, id: int)
    ensures var t := DropOwners(s, removed, added);
            && t.creds == s.creds && t.node == s.node && t.devices.online == s.devices.online && t.devices.gone == s.devices.gone
            && (id in t.owners <==> id in s.owners && !Leaves(s, removed, added, id)) && (id in t.owners ==> t.owners[id] == s.owners[id])
            && (id in t.devices.alive <==> id in s.devices.alive && !Leaves(s, removed, added, id))
            && (id in t.devices.alive ==> t.devices.alive[id] == s.devices.alive[id])
    decreases |removed|
  {
    if removed != [] {
      var n := |removed| - 1;
      var front := removed[..n];
      DroppedOwners(s, front, added, id);
      MentionsOn(removed, id);
      hide Mentions;
    }
  }

  lemma MentionsOn(users: seq<User>, id: int)
    requires users != []
    ensures Mentions(users, id) <==> Mentions(users[..|users| - 1], id) || users[|users| - 1].id == id
  {
    var n := |users| - 1;
    if Mentions(users, id) && users[n].id != id {
      var i :| 0 <= i < |users| && users[i].id == id;
      assert users[..n][i].id == id;
    }
    if i :| 0 <= i < n && users[..n][i].id == id { assert users[i].id == id; }
  }

  /** What an update leaves, owner by owner and credential by credential: an added user
      (the last one counts) sets the owner's speed and device limit and keeps its dynamic
      limit; an owner goes, with its device count, exactly when it is named among the
      deleted without a credential left or coming; deleted credentials go. */
  lemma UpdateExactly(s: State, added: seq<User>, deleted: seq<User>, id: int, uuid: string)
    requires Coherent(s)
    ensures var t, kept := Update(s, added, deleted), s.(creds := s.creds - Uuids(deleted));
            && (forall i :: LastOf(added, i, id) ==> id in t.owners && t.owners[id] == OwnerLimits(s, id).(speed := added[i].speed, device := added[i].device))
            && (!Mentions(added, id) ==>
                  (id in t.owners <==> id in s.owners && !Leaves(kept, deleted, added, id)) && (id in t.owners ==> t.owners[id] == s.owners[id]))
            && (forall i :: LastWith(added, i, uuid) ==> uuid in t.creds && t.creds[uuid] == added[i].id)
            && (uuid !in Uuids(added) ==> (uuid in t.creds <==> uuid in s.creds && uuid !in Uuids(deleted)) && (uuid in t.creds ==> t.creds[uuid] == s.creds[uuid]))
            && (id in t.devices.alive <==> id in s.devices.alive && !Leaves(kept, deleted, added, id))
  {
    var f := Forget(s, Uuids(deleted));
    var kept := s.(creds := s.creds - Uuids(deleted));
    var d := DropOwners(f, deleted, added);
    DroppedOwners(f, deleted, added, id);
    assert Leaves(f, deleted, added, id) <==> Leaves(kept, deleted, added, id);
    AddedOwners(d, added, id);
    AddedCreds(d, added, uuid);
    if i :| LastOf(added, i, id) { assert Mentions(added, id); }
    hide AddUsers, DropOwners, Uuids, LastOf, LastWith, Mentions, Leaves, Coherent;
  }

  // ---- runs -------------------------------------------------------------------------------

  datatype Step =
    | DoUpdate(added: seq<User>, deleted: seq<User>)
    | DoDynamic(uuid: string, limit: int, expire: int)
    | DoCheck(uuid: string, ip: string, counted: bool, now: int)
    | DoAlive(alive: map<int, int>)

  function Next(s: State, step: Step): State {
    match step
    case DoUpdate(added, deleted) => Update(s, added, deleted)
    case DoDynamic(uuid, limit, expire) => var r := SetDynamic(s, uuid, limit, expire); if r.Some? then r.value else s
    case DoCheck(uuid, ip, counted, now) => Check(s, uuid, ip, counted, now).0
    case DoAlive(alive) => s.(devices := s.devices.(alive := alive))
  }

  function Run(s: State, steps: seq<Step>): State
    decreases |steps|
  {
    if steps == [] then s else Run(Next(s, steps[0]), steps[1..])
  }

  lemma AddUserCoherent(s: State, u: User)
    requires Coherent(s)
    ensures Coherent(AddUser(s, u))
  {
    hide BytesPerSecond, Determine;
  }

  lemma {:induction false} AddUsersCoherent(s: State, added: seq<User>)
    requires Coherent(s)
    ensures Coherent(AddUsers(s, added))
    decreases |added|
  {
    hide Coherent;
    if added != [] {
      AddUsersCoherent(s, added[..|added| - 1]);
      AddUserCoherent(AddUsers(s, added[..|added| - 1]), added[|added| - 1]);
    }
  }

  lemma DropOwnerCoherent(s: State, id: int, added: seq<User>)
    requires Coherent(s)
    ensures Coherent(DropOwner(s, id, added))
  {
    hide Rate;
  }

  lemma {:induction false} DropOwnersCoherent(s: State, removed: seq<User>, added: seq<User>)
    requires Coherent(s)
    ensures Coherent(DropOwners(s, removed, added))
    decreases |removed|
  {
    hide Coherent;
    if removed != [] {
      DropOwnersCoherent(s, removed[..|removed| - 1], added);
      DropOwnerCoherent(DropOwners(s, removed[..|removed| - 1], added), removed[|removed| - 1].id, added);
    }
  }

  lemma UpdateCoherent(s: State, added: seq<User>, deleted: seq<User>)
    requires Coherent(s)
    ensures Coherent(Update(s, added, deleted))
  {
    var t := Forget(s, Uuids(deleted));
    assert Coherent(t) by { hide Rate; }
    hide Coherent;
    DropOwnersCoherent(t, deleted, added);
    AddUsersCoherent(DropOwners(t, deleted, added), added);
  }

  lemma StepCoherent(s: State, step: Step)
    requires Coherent(s)
    ensures Coherent(Next(s, step))
  {
    if step.DoUpdate? { UpdateCoherent(s, step.added, step.deleted); }
    hide Update, Rate, CheckDevices;
  }

  /** Cache coherence: after any sequence of user updates, dynamic limits, expiries and
      checks, every cached bucket has the rate of its owner's current limits. */
  lemma {:induction false} CacheCoherent(s: State, steps: seq<Step>)
    requires Coherent(s)
    ensures Coherent(Run(s, steps))
    decreases |steps|
  {
    hide Coherent;
    if steps != [] {
      StepCoherent(s, steps[0]);
      CacheCoherent(Next(s, steps[0]), steps[1..]);
    }
  }

  /** What a check answers is never stale: in every coherent state it is decided by the
      device limit, the node limit and the owner's limits in force at that time, cached
      or not. */
  lemma CheckCurrent(s: State, uuid: string, ip: string, counted: bool, now: int)
    requires Coherent(s) && uuid in s.creds
    ensures var l := s.owners[s.creds[uuid]];
            var rate := Rate(s.node, if Expires(l, now) then l.(dynamic := 0, expire := 0) else l);
            Check(s, uuid, ip, counted, now).1
            == if counted && Admit(s.devices, uuid, s.creds[uuid], Trimmed(ip), l.device).1 then Rejected else if rate <= 0 then Unlimited else Limited(rate)
  {
    hide Rate, Admit, Trimmed;
  }

  // ---- the limiter as an object ---------------------------------------------------------------

  class Bucket {
    const rate: int

    constructor (rate: int)
      ensures this.rate == rate
    {
      this.rate := rate;
    }
  }

  /** One owner's limits, shared by all its credentials. */
  class UserLimit {
    const uid: int
    var speed: int
    var device: int
    var dynamic: int
    var expire: int

    ghost function Value(): Limits
      reads this
    {
      Limits(speed, device, dynamic, expire)
    }

    constructor (uid: int)
      ensures this.uid == uid && Value() == Limits(0, 0, 0, 0)
    {
      this.uid, speed, device, dynamic, expire := uid, 0, 0, 0, 0;
    }
  }

  class Limiter {
    var node: int
    var ownerInfo: map<int, UserLimit>
    var users: map<string, UserLimit>
    var uuidToUid: map<string, int>
    var buckets: map<int, Bucket>
    var devices: Devices

    /** Records carry their owner's number, and a credential's record is its owner's. */
    ghost predicate Aliased()
      reads this
    {
      && (forall id :: id in ownerInfo ==> ownerInfo[id].uid == id)
      && users.Keys == uuidToUid.Keys
      && (forall u :: u in users ==> uuidToUid[u] in ownerInfo && users[u] == ownerInfo[uuidToUid[u]])
    }

    ghost function View(): State
      reads this, ownerInfo.Values
    {
      State(node, map id | id in ownerInfo :: ownerInfo[id].Value(), uuidToUid, map id | id in buckets :: buckets[id].rate, devices)
    }

    ghost predicate Valid()
      reads this, ownerInfo.Values
    {
      Aliased() && Coherent(View())
    }

    constructor (node: int, alive: map<int, int>)
      ensures Aliased() && View() == State(node, map[], map[], map[], Devices(map[], map[], alive)) && fresh(ownerInfo.Values)
    {
      this.node, ownerInfo, users, uuidToUid, buckets, devices := node, map[], map[], map[], map[], Devices(map[], map[], alive);
    }

    /** The record of an owner, created when there is none. */
    method Record(id: int) returns (limit: UserLimit)
      requires Aliased()
      modifies this`ownerInfo
      ensures Aliased() && id in ownerInfo && ownerInfo[id] == limit && (id in old(ownerInfo) || fresh(limit))
      ensures View() == old(View()).(owners := old(View()).owners[id := OwnerLimits(old(View()), id)])
      ensures forall r :: r in ownerInfo.Values ==> r in old(ownerInfo.Values) || fresh(r)
    {
      ghost var owners := View().owners;
      if id in ownerInfo {
        assert owners == owners[id := owners[id]];
        return ownerInfo[id];
      }
      limit := new UserLimit(id);
      ownerInfo := ownerInfo[id := limit];
      assert View().owners == owners[id := Limits(0, 0, 0, 0)];
    }

    /** Writing one record changes the limits of its owner and of no other. */
    method Write(limit: UserLimit, l: Limits)
      requires Aliased() && limit.uid in ownerInfo && ownerInfo[limit.uid] == limit
      modifies limit
      ensures View() == old(View()).(owners := old(View()).owners[limit.uid := l])
    {
      ghost var owners := View().owners;
      assert forall id :: id in ownerInfo && id != limit.uid ==> ownerInfo[id] != limit;
      limit.speed, limit.device, limit.dynamic, limit.expire := l.speed, l.device, l.dynamic, l.expire;
      assert forall id :: id in ownerInfo && id != limit.uid ==> ownerInfo[id].Value() == old(ownerInfo[id].Value());
      assert View().owners == owners[limit.uid := l];
    }

    /** Gives a credential the record of an owner. */
    method Credential(uuid: string, limit: UserLimit)
      requires Aliased() && limit.uid in ownerInfo && ownerInfo[limit.uid] == limit
      modifies this`users, this`uuidToUid
      ensures Aliased() && View() == old(View()).(creds := old(View()).creds[uuid := limit.uid])
    {
      users := users[uuid := limit];
      uuidToUid := uuidToUid[uuid := limit.uid];
    }

    method DropBucket(id: int)
      requires Aliased()
      modifies this`buckets
      ensures Aliased() && View() == old(View()).(rates := old(View()).rates - {id}) && buckets == old(buckets) - {id}
    {
      ghost var rates := View().rates;
      buckets := buckets - {id};
      assert View().rates == rates - {id};
    }

    /** One user of the initial list; a limit that is not set leaves the owner's alone. */
    method LoadUser(u: User)
      requires Aliased()
      modifies this`ownerInfo, this`users, this`uuidToUid, ownerInfo.Values
      ensures Aliased() && View() == Load(old(View()), u)
      ensures forall r :: r in ownerInfo.Values ==> r in old(ownerInfo.Values) || fresh(r)
    {
      ghost var s := View();
      var limit := Record(u.id);
      ghost var l := OwnerLimits(s, u.id);
      assert limit.Value() == View().owners[u.id] == l;
      var speed, device := if u.speed != 0 then u.speed else limit.speed, if u.device != 0 then u.device else limit.device;
      Write(limit, Limits(speed, device, limit.dynamic, limit.expire));
      PutTwice(s.owners, u.id, l, l.(speed := speed, device := device));
      Credential(u.uuid, limit);
    }

    method DeleteCredential(uuid: string)
      requires Aliased()
      modifies this`users, this`uuidToUid, this`devices
      ensures Aliased() && View() == Forget(old(View()), {uuid})
    {
      devices := devices.(online := devices.online - {uuid});
      users := users - {uuid};
      uuidToUid := uuidToUid - {uuid};
    }

    /** Drops an owner without remaining or incoming credential. */
    method RemoveOwner(id: int, added: seq<User>)
      requires Aliased()
      modifies this`ownerInfo, this`buckets, this`devices
      ensures Aliased() && ownerInfo.Values <= old(ownerInfo.Values) && View() == DropOwner(old(View()), id, added)
    {
      var remains := Owns(id);
      if !remains {
        remains := Coming(added, id);
      }
      if !remains {
        buckets := buckets - {id};
        devices := devices.(alive := devices.alive - {id});
        ownerInfo := ownerInfo - {id};
      }
    }

    /** Some credential still belongs to the owner. */
    method Owns(id: int) returns (found: bool)
      ensures found <==> exists u :: u in uuidToUid && uuidToUid[u] == id
    {
      var left := uuidToUid.Keys;
      while left != {}
        invariant left <= uuidToUid.Keys
        invariant forall u :: u in uuidToUid && u !in left ==> uuidToUid[u] != id
      {
        var u :| u in left;
        if uuidToUid[u] == id {
          return true;
        }
        left := left - {u};
      }
      return false;
    }

    /** One added credential: the owner's record is changed in place, and its bucket is
        dropped when the speed changes. */
    method StoreUser(u: User)
      requires Aliased()
      modifies this`ownerInfo, this`users, this`uuidToUid, this`buckets, ownerInfo.Values
      ensures Aliased() && View() == AddUser(old(View()), u)
      ensures forall r :: r in ownerInfo.Values ==> r in old(ownerInfo.Values) || fresh(r)
    {
      ghost var s := View();
      var limit := Record(u.id);
      ghost var l := OwnerLimits(s, u.id);
      assert limit.Value() == View().owners[u.id] == l;
      if limit.speed != u.speed {
        DropBucket(u.id);
      }
      assert limit.Value() == l;
      Write(limit, Limits(u.speed, u.device, limit.dynamic, limit.expire));
      PutTwice(s.owners, u.id, l, l.(speed := u.speed, device := u.device));
      Credential(u.uuid, limit);
    }

    method UpdateUser(added: seq<User>, deleted: seq<User>)
      requires Valid()
      modifies this, ownerInfo.Values
      ensures Valid() && View() == Update(old(View()), added, deleted)
      ensures forall r :: r in ownerInfo.Values ==> r in old(ownerInfo.Values) || fresh(r)
    {
      UpdateCoherent(View(), added, deleted);
      hide Coherent;
      ForgetAll(deleted);
      DropAll(deleted, added);
      AddAll(added);
    }

    method ForgetAll(deleted: seq<User>)
      requires Aliased()
      modifies this`users, this`uuidToUid, this`devices
      ensures Aliased() && View() == Forget(old(View()), Uuids(deleted))
    {
      assert Uuids(deleted[..0]) == {};
      ForgetNone(View());
      for i := 0 to |deleted|
        invariant Aliased() && View() == Forget(old(View()), Uuids(deleted[..i]))
      {
        assert Uuids(deleted[..i + 1]) == Uuids(deleted[..i]) + {deleted[i].uuid} by { UuidsOn(deleted, i); }
        ForgetMore(old(View()), Uuids(deleted[..i]), deleted[i].uuid);
        hide Forget;
        DeleteCredential(deleted[i].uuid);
      }
      assert deleted[..|deleted|] == deleted;
    }

    method DropAll(deleted: seq<User>, added: seq<User>)
      requires Aliased()
      modifies this`ownerInfo, this`buckets, this`devices
      ensures Aliased() && ownerInfo.Values <= old(ownerInfo.Values) && View() == DropOwners(old(View()), deleted, added)
    {
      hide DropOwner;
      for i := 0 to |deleted|
        invariant Aliased() && ownerInfo.Values <= old(ownerInfo.Values) && View() == DropOwners(old(View()), deleted[..i], added)
      {
        assert deleted[..i + 1][..i] == deleted[..i];
        RemoveOwner(deleted[i].id, added);
      }
      assert deleted[..|deleted|] == deleted;
    }

    method AddAll(added: seq<User>)
      requires Aliased()
      modifies this`ownerInfo, this`users, this`uuidToUid, this`buckets, ownerInfo.Values
      ensures Aliased() && View() == AddUsers(old(View()), added)
      ensures forall r :: r in ownerInfo.Values ==> r in old(ownerInfo.Values) || fresh(r)
    {
      hide AddUser;
      for i := 0 to |added|
        invariant Aliased() && View() == AddUsers(old(View()), added[..i])
        invariant forall r :: r in ownerInfo.Values ==> r in old(ownerInfo.Values) || fresh(r)
      {
        assert added[..i + 1][..i] == added[..i];
        StoreUser(added[i]);
      }
      assert added[..|added|] == added;
    }

    method UpdateDynamicSpeedLimit(uuid: string, limit: int, expire: int) returns (ok: bool)
      requires Valid()
      modifies this`buckets, ownerInfo.Values
      ensures Valid() && ok == SetDynamic(old(View()), uuid, limit, expire).Some?
      ensures View() == if ok then SetDynamic(old(View()), uuid, limit, expire).value else old(View())
    {
      StepCoherent(View(), DoDynamic(uuid, limit, expire));
      hide Coherent;
      if uuid !in users {
        return false;
      }
      var info := users[uuid];
      assert info.Value() == View().owners[info.uid];
      DropBucket(info.uid);
      Write(info, Limits(info.speed, info.device, limit, expire));
      return true;
    }

    /** The answer is decided by the owner's current limits; all credentials of an owner
        get one and the same bucket until its limits change. */
    method CheckLimit(uuid: string, ip: string, counted: bool, now: int) returns (bucket: Bucket?, reject: bool)
      requires Valid()
      modifies this`buckets, this`devices, ownerInfo.Values
      ensures Valid() && View() == Check(old(View()), uuid, ip, counted, now).0
      ensures Check(old(View()), uuid, ip, counted, now).1 == if reject then Rejected else if bucket == null then Unlimited else Limited(bucket.rate)
      ensures bucket != null ==> uuid in uuidToUid && uuidToUid[uuid] in buckets && buckets[uuidToUid[uuid]] == bucket
      // the bucket is that of the least limit set, the dynamic one only while it lasts
      ensures !reject && uuid in uuidToUid ==>
                var l := old(View()).owners[uuidToUid[uuid]];
                var dynamic := Dynamic(l, now);
                node >= 0 && l.speed >= 0 && dynamic >= 0 && Fits(node) && Fits(l.speed) && Fits(dynamic) ==>
                  Fair(if bucket == null then Unlimited else Limited(bucket.rate), node, l.speed, dynamic)
      ensures forall id :: id in old(buckets) && id in buckets && !(uuid in uuidToUid && uuidToUid[uuid] == id && Expires(old(View()).owners[id], now)) ==> buckets[id] == old(buckets[id])
    {
      ghost var s := View();
      hide Rate, Coherent, Answer, Fair, Fits, Dynamic;
      if uuid in s.creds && Check(s, uuid, ip, counted, now).1 != Rejected { FairExactly(s, uuid, ip, counted, now); }
      StepCoherent(s, DoCheck(uuid, ip, counted, now));
      assert Coherent(Check(s, uuid, ip, counted, now).0);
      hide Next;
      if uuid !in users {
        return null, true;
      }
      var u := users[uuid];
      Refresh(u, now);
      bucket, reject := AnswerFor(u, uuid, ip, counted);
    }

    /** The device part and the bucket. */
    method AnswerFor(u: UserLimit, uuid: string, ip: string, counted: bool) returns (bucket: Bucket?, reject: bool)
      requires Aliased() && u.uid in ownerInfo && ownerInfo[u.uid] == u
      modifies this`buckets, this`devices
      ensures Aliased() && View() == Answer(old(View()), uuid, u.uid, ip, counted).0
      ensures Answer(old(View()), uuid, u.uid, ip, counted).1 == if reject then Rejected else if bucket == null then Unlimited else Limited(bucket.rate)
      ensures bucket != null ==> !reject && u.uid in buckets && buckets[u.uid] == bucket
      ensures forall id :: id in old(buckets) ==> id in buckets && buckets[id] == old(buckets[id])
    {
      hide Rate, CheckDevices;
      ghost var s := View();
      var refused := CheckDevice(uuid, u, ip, counted);
      if refused {
        return null, true;
      }
      bucket := Fetch(u);
      reject := false;
      if bucket != null && u.uid in s.rates { assert s.rates[u.uid := bucket.rate] == s.rates; }
    }

    /** The device-limit part. */
    method CheckDevice(uuid: string, u: UserLimit, ip: string, counted: bool) returns (refused: bool)
      requires Aliased() && u.uid in ownerInfo && ownerInfo[u.uid] == u
      modifies this`devices
      ensures (devices, refused) == CheckDevices(old(View()), uuid, u.uid, ip, counted)
    {
      hide Trimmed;
      assert u.Value() == View().owners[u.uid];
      if counted {
        refused := AdmitDevice(uuid, u.uid, Trimmed(ip), u.device);
      } else {
        refused := false;
      }
    }

    /** An address is put on record first and taken off again when it is refused. */
    method AdmitDevice(uuid: string, uid: int, ip: string, limit: int) returns (refused: bool)
      modifies this`devices
      ensures (devices, refused) == Admit(old(devices), uuid, uid, ip, limit)
    {
      ghost var d := devices;
      var alive := if uid in devices.alive then devices.alive[uid] else 0;
      var loaded := uuid in devices.online;
      if loaded {
        if ip in devices.online[uuid] {
          return false;
        }
        devices := devices.(online := devices.online[uuid := devices.online[uuid][ip := uid]]);
      } else {
        devices := devices.(online := devices.online[uuid := map[ip := uid]]);
      }
      if ip in devices.gone {
        if devices.gone[ip] == uid {
          devices := devices.(gone := devices.gone - {ip});
        }
      } else if limit > 0 && limit <= alive {
        if loaded {
          assert d.online[uuid][ip := uid] - {ip} == d.online[uuid];
          devices := devices.(online := devices.online[uuid := devices.online[uuid] - {ip}]);
        } else {
          devices := devices.(online := devices.online - {uuid});
        }
        assert devices.online == d.online;
        return true;
      }
      return false;
    }

    method UpdateAliveList(alive: map<int, int>)
      requires Valid()
      modifies this`devices
      ensures Valid() && View() == Next(old(View()), DoAlive(alive))
    {
      devices := devices.(alive := alive);
      hide Rate;
    }

    /** Clears an expired dynamic limit. */
    method Refresh(u: UserLimit, now: int)
      requires Aliased() && u.uid in ownerInfo && ownerInfo[u.uid] == u
      modifies this`buckets, u
      ensures Aliased() && View() == Expire(old(View()), u.uid, now)
      ensures buckets == if Expires(old(u.Value()), now) then old(buckets) - {u.uid} else old(buckets)
    {
      assert u.Value() == View().owners[u.uid];
      if u.expire < now && u.expire != 0 {
        Write(u, Limits(u.speed, u.device, 0, 0));
        DropBucket(u.uid);
      }
    }

    /** The owner's bucket, from the cache or made for its current rate. */
    method Fetch(u: UserLimit) returns (bucket: Bucket?)
      requires Aliased() && u.uid in ownerInfo && ownerInfo[u.uid] == u
      modifies this`buckets
      ensures var s := old(View());
              var rate := Rate(s.node, s.owners[u.uid]);
              if rate <= 0 then bucket == null && buckets == old(buckets)
              else
                && bucket != null && u.uid in buckets && buckets[u.uid] == bucket
                && (if u.uid in old(buckets) then buckets == old(buckets) else bucket.rate == rate && buckets == old(buckets)[u.uid := bucket])
      ensures View() == old(View()).(rates := if bucket == null then old(View()).rates else old(View()).rates[u.uid := bucket.rate])
    {
      hide Rate;
      ghost var rates := View().rates;
      var rate := Rate(node, Limits(u.speed, u.device, u.dynamic, u.expire));
      assert View().owners[u.uid] == Limits(u.speed, u.device, u.dynamic, u.expire);
      if rate <= 0 {
        return null;
      }
      if u.uid in buckets {
        assert rates == rates[u.uid := rates[u.uid]];
        return buckets[u.uid];
      }
      bucket := new Bucket(rate);
      buckets := buckets[u.uid := bucket];
      assert View().rates == rates[u.uid := rate];
    }
  }

  /** `AddLimiter`: a new limiter over the initial users, with no bucket cached. */
  method AddLimiter(node: int, users: seq<User>, alive: map<int, int>) returns (l: Limiter)
    ensures fresh(l) && fresh(l.ownerInfo.Values) && l.Valid() && l.View() == LoadAll(State(node, map[], map[], map[], Devices(map[], map[], alive)), users)
  {
    hide Load;
    l := new Limiter(node, alive);
    ghost var s := l.View();
    for i := 0 to |users|
      invariant fresh(l) && fresh(l.ownerInfo.Values) && l.Aliased() && l.View() == LoadAll(s, users[..i])
    {
      assert users[..i + 1][..i] == users[..i];
      l.LoadUser(users[i]);
    }
    assert users[..|users|] == users;
    LoadedCoherent(s, users);
  }

  method Coming(added: seq<User>, id: int) returns (found: bool)
    ensures found <==> Mentions(added, id)
  {
    for i := 0 to |added|
      invariant forall j :: 0 <= j < i ==> added[j].id != id
    {
      if added[i].id == id {
        return true;
      }
    }
    return false;
  }

  lemma ForgetNone(s: State)
    ensures Forget(s, {}) == s
  {
    assert s.creds - {} == s.creds && s.devices.online - {} == s.devices.online;
  }

  lemma ForgetMore(s: State, uuids: set<string>, uuid: string)
    ensures Forget(Forget(s, uuids), {uuid}) == Forget(s, uuids + {uuid})
  {
    assert s.creds - uuids - {uuid} == s.creds - (uuids + {uuid});
    assert s.devices.online - uuids - {uuid} == s.devices.online - (uuids + {uuid});
  }

  lemma PutTwice(m: map<int, Limits>, k: int, a: Limits, b: Limits)
    ensures m[k := a][k := b] == m[k := b]
  {
  }

  lemma UuidsOn(users: seq<User>, i: nat)
    requires i < |users|
    ensures Uuids(users[..i + 1]) == Uuids(users[..i]) + {users[i].uuid}
  {
    assert forall k :: 0 <= k < i ==> users[..i + 1][k] == users[..i][k];
    forall x | x in Uuids(users[..i]) ensures x in Uuids(users[..i + 1]) {
      var k :| 0 <= k < i && users[..i][k].uuid == x;
      assert users[..i + 1][k].uuid == x;
    }
    assert users[..i + 1][i].uuid == users[i].uuid;
  }
}
