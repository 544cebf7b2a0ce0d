/** Presence: one expiring key per device, and an expiring set of a user's devices. Any number of SetOnline, SetOffline
    and IsOnline calls interleave, one Valkey command at a time, on a clock that does not go back. */
module Presence {
  import opened Domain

  type Device = (string, string)

  /** A set without an expiry stays until it is emptied. */
  datatype DeviceSet = DeviceSet(members: set<string>, expiry: Option<int>)

  const SECOND: int := 1_000_000_000

  /** Valkey takes whole seconds; the clock here is in milliseconds. */
  function WholeSeconds(ttl: int): int { 1000 * (ttl / SECOND) }

  /** The reference: some device of the user went online less than `ttl` ago and not offline since. */
  predicate Live(online: map<Device, int>, ttl: int, user: string, now: int) {
    exists p :: p in online && p.0 == user && now < online[p] + ttl
  }

  /** Each device last seen online has a key that expires a time to live later. */
  ghost predicate Keyed(keys: map<Device, int>, online: map<Device, int>, keyTtl: int, now: int) {
    keys.Keys == online.Keys && forall p :: p in keys ==> keys[p] == online[p] + keyTtl && online[p] <= now
  }

  predicate Outlives(expiry: Option<int>, time: int) { expiry.None? || time <= expiry.value }

  /** Every device whose key is alive is in its user's set, which outlives the key, but for the `unsure` ones. */
  ghost predicate Covered(keys: map<Device, int>, sets: map<string, DeviceSet>, unsure: set<Device>, now: int) {
    forall p :: p in keys && now < keys[p] && p !in unsure ==>
      p.0 in sets && p.1 in sets[p.0].members && Outlives(sets[p.0].expiry, keys[p])
  }

  predicate Lasts(sets: map<string, DeviceSet>, user: string, now: int) {
    user in sets && (sets[user].expiry.None? || now < sets[user].expiry.value)
  }

  lemma Later(keys: map<Device, int>, online: map<Device, int>, sets: map<string, DeviceSet>, unsure: set<Device>,
              keyTtl: int, clock: int, now: int)
    requires Keyed(keys, online, keyTtl, clock) && Covered(keys, sets, unsure, clock) && clock <= now
    ensures Keyed(keys, online, keyTtl, now) && Covered(keys, sets, unsure, now)
  {
  }

  /** A device whose key is renewed may not be covered until the rest has worked. */
  lemma KeyKeeps(keys: map<Device, int>, online: map<Device, int>, sets: map<string, DeviceSet>, unsure: set<Device>,
                 keyTtl: int, now: int, p: Device)
    requires Keyed(keys, online, keyTtl, now) && Covered(keys, sets, unsure, now)
    ensures Keyed(keys[p := now + keyTtl], online[p := now], keyTtl, now)
    ensures Covered(keys[p := now + keyTtl], sets, unsure + {p}, now)
  {
  }

  /** A device joining its user's set uncovers nobody: the set keeps its expiry, or is new and has none. */
  lemma JoinKeeps(keys: map<Device, int>, sets: map<string, DeviceSet>, unsure: set<Device>, now: int, p: Device)
    requires Covered(keys, sets, unsure, now)
    ensures Covered(keys, Joined(sets, p, now), unsure, now)
  {
  }

  /** SADD; an expired set is gone. */
  function Joined(sets: map<string, DeviceSet>, p: Device, now: int): map<string, DeviceSet> {
    sets[p.0 := if Lasts(sets, p.0, now) then sets[p.0].(members := sets[p.0].members + {p.1}) else DeviceSet({p.1}, None)]
  }

  /** A renewed set outlives every key of the user that is alive, so a device in it is covered. */
  lemma RenewKeeps(keys: map<Device, int>, online: map<Device, int>, sets: map<string, DeviceSet>, unsure: set<Device>,
                   keyTtl: int, setTtl: int, now: int, p: Device)
    requires Keyed(keys, online, keyTtl, now) && Covered(keys, sets, unsure, now) && keyTtl <= setTtl
    requires p.0 in sets && p.1 in sets[p.0].members
    ensures Covered(keys, sets[p.0 := sets[p.0].(expiry := Some(now + setTtl))], unsure - {p}, now)
  {
  }

  /** EXPIRE; of a set that is gone it does nothing. */
  function Renewed(sets: map<string, DeviceSet>, user: string, expiry: int, now: int): map<string, DeviceSet> {
    if Lasts(sets, user, now) then sets[user := sets[user].(expiry := Some(expiry))] else sets
  }

  /** SREM; a set that becomes empty goes away. */
  function Removed(sets: map<string, DeviceSet>, p: Device, now: int): map<string, DeviceSet> {
    if !Lasts(sets, p.0, now) then sets
    else if sets[p.0].members - {p.1} == {} then sets - {p.0}
    else sets[p.0 := sets[p.0].(members := sets[p.0].members - {p.1})]
  }

  /** The user's devices, unless the set has expired. */
  function Devices(sets: map<string, DeviceSet>, user: string, now: int): set<string> {
    if Lasts(sets, user, now) then sets[user].members else {}
  }

  /** Dropping a device that has no key, or is not in the set, uncovers nobody. */
  lemma RemoveKeeps(keys: map<Device, int>, sets: map<string, DeviceSet>, unsure: set<Device>, now: int, p: Device)
    requires Covered(keys, sets, unsure, now)
    requires p !in keys || keys[p] <= now || p.1 !in Devices(sets, p.0, now)
    ensures Covered(keys, Removed(sets, p, now), unsure, now)
  {
    var sets' := Removed(sets, p, now);
    forall q | q in keys && now < keys[q] && q !in unsure
      ensures q.0 in sets' && q.1 in sets'[q.0].members && Outlives(sets'[q.0].expiry, keys[q])
    {
      assert q != p && (q.0 == p.0 ==> q.1 in sets[p.0].members - {p.1});
    }
  }

  /** A device whose key is deleted needs no cover. */
  lemma DeleteKeeps(keys: map<Device, int>, online: map<Device, int>, sets: map<string, DeviceSet>, unsure: set<Device>,
                    keyTtl: int, now: int, p: Device)
    requires Keyed(keys, online, keyTtl, now) && Covered(keys, sets, unsure, now)
    ensures Keyed(keys - {p}, online - {p}, keyTtl, now) && Covered(keys - {p}, sets, unsure - {p}, now)
    ensures p !in online ==> Covered(keys, sets, unsure - {p}, now)
  {
  }

  // ----- Interleaved calls, one command at a time -----

  datatype Reply = Finished | Failed | Found(user: string, online: bool)

  /** Where one call stands; the name says which command comes next. */
  datatype Op =
    | SetKey(p: Device)
    | AddDevice(p: Device)
    | RenewSet(p: Device)
    | DeleteKey(p: Device)
    | DropLeft(p: Device)
    | ReadSet(user: string)
    | Loop(user: string, left: set<string>, found: bool)
    | LookUp(p: Device, left: set<string>, found: bool)
    | DropGone(p: Device, left: set<string>, found: bool)
    | Over(reply: Reply)

  datatype State = State(
    keyTtl: int,
    setTtl: int,
    now: int,
    keys: map<Device, int>,        // presence:{user}:{device}, with its expiry
    sets: map<string, DeviceSet>,  // presence_devices:{user}
    online: map<Device, int>,      // history: when each device last went online, if not offline since
    ops: map<nat, Op>)

  datatype Action =
    | Elapse(d: nat)
    | StartOnline(id: nat, p: Device)
    | StartOffline(id: nat, p: Device)
    | StartIsOnline(id: nat, user: string)
    | Call(id: nat, fault: Fault)
    | Pick(id: nat, device: string)
    | Crash(id: nat)

  predicate Alive(s: State, p: Device) { p in s.keys && s.now < s.keys[p] }

  predicate Enabled(s: State, a: Action) {
    match a
    case Elapse(_) => true
    case StartOnline(id, _) => id !in s.ops
    case StartOffline(id, _) => id !in s.ops
    case StartIsOnline(id, _) => id !in s.ops
    case Call(id, _) => id in s.ops && !s.ops[id].Over? && !s.ops[id].Loop?
    case Pick(id, device) => id in s.ops && s.ops[id].Loop? && device in s.ops[id].left
    case Crash(id) => id in s.ops
  }

  /** The loop of IsOnline goes on until every device has been looked at. */
  function Rest(user: string, left: set<string>, found: bool): Op {
    if left == {} then Over(Found(user, found)) else Loop(user, left, found)
  }

  /** Where the call goes next. The server refuses to set a key that expires at once. */
  function NextOp(s: State, op: Op, fault: Fault): Op
    requires !op.Over? && !op.Loop?
  {
    match op
    case SetKey(p) => if fault.Ok? && s.keyTtl > 0 then AddDevice(p) else Over(Failed)
    case AddDevice(p) => if fault.Ok? then RenewSet(p) else Over(Failed)
    case RenewSet(_) => Over(if fault.Ok? then Finished else Failed)
    case DeleteKey(p) => if fault.Ok? then DropLeft(p) else Over(Failed)
    case DropLeft(_) => Over(Finished)
    case ReadSet(user) => if fault.Ok? then Rest(user, Devices(s.sets, user, s.now), false) else Over(Failed)
    case LookUp(p, left, found) =>
      if !fault.Ok? then Over(Failed) else if Alive(s, p) then Rest(p.0, left, true) else DropGone(p, left, found)
    case DropGone(p, left, found) => Rest(p.0, left, found)
  }

  /** What the command changes, unless it is lost. */
  function Effect(s: State, op: Op): State {
    match op
    case SetKey(p) =>
      if s.keyTtl <= 0 then s else s.(keys := s.keys[p := s.now + s.keyTtl], online := s.online[p := s.now])
    case AddDevice(p) => s.(sets := Joined(s.sets, p, s.now))
    case RenewSet(p) => s.(sets := Renewed(s.sets, p.0, s.now + s.setTtl, s.now))
    case DeleteKey(p) => s.(keys := s.keys - {p}, online := s.online - {p})
    case DropLeft(p) => s.(sets := Removed(s.sets, p, s.now))
    case DropGone(p, _, _) => s.(sets := Removed(s.sets, p, s.now))
    case _ => s
  }

  function Go(s: State, id: nat, op: Op): State { s.(ops := s.ops[id := op]) }

  function Apply(s: State, a: Action): State
    requires Enabled(s, a)
  {
    match a
    case Elapse(d) => s.(now := s.now + d)
    case StartOnline(id, p) => Go(s, id, SetKey(p))
    case StartOffline(id, p) => Go(s, id, DeleteKey(p))
    case StartIsOnline(id, user) => Go(s, id, ReadSet(user))
    case Call(id, fault) => Go(if fault.Lost? then s else Effect(s, s.ops[id]), id, NextOp(s, s.ops[id], fault))
    case Pick(id, device) =>
      var op := s.ops[id];
      Go(s, id, LookUp((op.user, device), op.left - {device}, op.found))
    case Crash(id) => s.(ops := s.ops - {id})
  }

  predicate Runs(s: State, acts: seq<Action>)
    decreases |acts|
  {
    acts == [] || (Enabled(s, acts[0]) && Runs(Apply(s, acts[0]), acts[1..]))
  }

  function Exec(s: State, acts: seq<Action>): State
    requires Runs(s, acts)
    decreases |acts|
  {
    if acts == [] then s else Exec(Apply(s, acts[0]), acts[1..])
  }

  lemma {:induction false} OneMore(s: State, acts: seq<Action>, a: Action)
    requires Runs(s, acts) && Enabled(Exec(s, acts), a)
    ensures Runs(s, acts + [a]) && Exec(s, acts + [a]) == Apply(Exec(s, acts), a)
    decreases |acts|
  {
    hide Enabled, Apply;
    if acts == [] {
      assert (acts + [a])[1..] == [];
    } else {
      assert (acts + [a])[1..] == acts[1..] + [a];
      OneMore(Apply(s, acts[0]), acts[1..], a);
    }
  }

  /** What IsOnline answers if nothing comes between its commands: some device in the user's set has a key. */
  predicate Answer(s: State, user: string) {
    exists d :: d in Devices(s.sets, user, s.now) && Alive(s, (user, d))
  }

  /** An empty store at some time. */
  function Empty(ttl: int, now: int): State {
    State(WholeSeconds(ttl), WholeSeconds(2 * ttl), now, map[], map[], map[], map[])
  }

  /** An answer is right but that devices left `unsure` may be overlooked. */
  lemma AnswerIsLive(s: State, unsure: set<Device>, user: string)
    requires Keyed(s.keys, s.online, s.keyTtl, s.now) && Covered(s.keys, s.sets, unsure, s.now)
    ensures Answer(s, user) ==> Live(s.online, s.keyTtl, user, s.now)
    ensures forall p :: p in s.online && p.0 == user && s.now < s.online[p] + s.keyTtl && p !in unsure ==> Answer(s, user)
  {
    if d :| d in Devices(s.sets, user, s.now) && Alive(s, (user, d)) {
      assert (user, d) in s.online;
    }
    forall p | p in s.online && p.0 == user && s.now < s.online[p] + s.keyTtl && p !in unsure ensures Answer(s, user) {
      assert Alive(s, (user, p.1)) && p == (user, p.1);
    }
  }

  // ----- One call on its own -----

  /** From `s`, the steps `acts` of call `id`, with nothing in between, lead to the stores of `t` and this point. */
  ghost predicate CallAt(s: State, acts: seq<Action>, id: nat, t: State, op: Op) {
    Runs(s, acts) && OnlyCall(acts, id) && Exec(s, acts) == t.(ops := s.ops[id := op])
  }

  predicate OnlyCall(acts: seq<Action>, id: nat) {
    forall a :: a in acts ==> !a.Elapse? && !a.Crash? && a.id == id
  }

  /** Every device taken up was looked up without a failure. */
  predicate AllLooked(acts: seq<Action>) {
    forall k :: 0 <= k < |acts| && acts[k].Pick? ==> k + 1 < |acts| && acts[k + 1].Call? && acts[k + 1].fault.Ok?
  }

  lemma NoneLooked(id: nat, user: string)
    ensures forall fault :: AllLooked([StartIsOnline(id, user)] + [Call(id, fault)])
  {
  }

  lemma LookedAtOne(taken: seq<Action>, acts: seq<Action>)
    requires taken <= acts && |acts| - |taken| in {2, 3} && acts[|taken|].Pick?
    requires acts[|taken| + 1].Call? && acts[|acts| - 1].Call?
    ensures AllLooked(acts) <==> AllLooked(taken) && acts[|taken| + 1].fault.Ok?
  {
    if AllLooked(acts) {
      assert acts[|taken|].Pick?;
      forall k | 0 <= k < |taken| && taken[k].Pick? ensures k + 1 < |taken| && taken[k + 1].Call? && taken[k + 1].fault.Ok? {
        assert acts[k].Pick?;
      }
    } else if AllLooked(taken) && acts[|taken| + 1].fault.Ok? {
      forall k | 0 <= k < |acts| && acts[k].Pick? ensures k + 1 < |acts| && acts[k + 1].Call? && acts[k + 1].fault.Ok? {
        assert k < |taken| ==> taken[k].Pick?;
      }
    }
  }

  lemma Starts(s: State, id: nat, a: Action, op: Op)
    requires Enabled(s, a) && !a.Elapse? && !a.Crash? && a.id == id && Apply(s, a) == Go(s, id, op)
    ensures CallAt(s, [a], id, s, op)
  {
    assert Runs(s, []) && Exec(s, []) == s;
    OneMore(s, [], a);
    assert [] + [a] == [a];
    hide Enabled, Apply, Runs, Exec;
  }

  /** Neither what a command does nor where it leads depends on other calls. */
  lemma StoreOnly(t: State, ops: map<nat, Op>, op: Op, fault: Fault)
    ensures Effect(t.(ops := ops), op) == Effect(t, op).(ops := ops)
    ensures !op.Over? && !op.Loop? ==> NextOp(t.(ops := ops), op, fault) == NextOp(t, op, fault)
  {
  }

  /** The next command of the call. */
  lemma Steps(s: State, acts: seq<Action>, id: nat, t: State, op: Op, fault: Fault) returns (more: seq<Action>)
    requires CallAt(s, acts, id, t, op) && !op.Over? && !op.Loop?
    ensures more == acts + [Call(id, fault)] && CallAt(s, more, id, if fault.Lost? then t else Effect(t, op), NextOp(t, op, fault))
  {
    more := acts + [Call(id, fault)];
    OneMore(s, acts, Call(id, fault));
    StoreOnly(t, s.ops[id := op], op, fault);
    hide Runs, Exec, Effect, NextOp;
    assert s.ops[id := op][id := NextOp(t, op, fault)] == s.ops[id := NextOp(t, op, fault)];
  }

  /** IsOnline takes the next device. */
  lemma Picks(s: State, acts: seq<Action>, id: nat, t: State, op: Op, device: string) returns (more: seq<Action>)
    requires CallAt(s, acts, id, t, op) && op.Loop? && device in op.left
    ensures more == acts + [Pick(id, device)] && CallAt(s, more, id, t, LookUp((op.user, device), op.left - {device}, op.found))
  {
    more := acts + [Pick(id, device)];
    OneMore(s, acts, Pick(id, device));
    hide Runs, Exec;
    var op' := LookUp((op.user, device), op.left - {device}, op.found);
    assert s.ops[id := op][id := op'] == s.ops[id := op'];
  }

  // ----- The repository -----

  /** The repository as one caller runs it, one whole operation at a time: each is a run of one call of the interleaved
      machine, from any state of it with this store. */
  class PresenceRepository {
    const ttl: int
    var keys: map<Device, int>
    var sets: map<string, DeviceSet>
    ghost var online: map<Device, int>
    ghost var unsure: set<Device>       // devices whose last SetOnline set the key and then reported a failure
    ghost var clock: int

    ghost predicate Valid()
      reads this
    {
      && ttl > 0
      && Keyed(keys, online, KeyTtl(), clock)
      && Covered(keys, sets, unsure, clock)
    }

    /** The machine with this store, at some time, with some other calls under way. */
    ghost function View(now: int, others: map<nat, Op>): State
      reads this
    {
      State(KeyTtl(), SetTtl(), now, keys, sets, online, others)
    }

    function KeyTtl(): int { WholeSeconds(ttl) }

    function SetTtl(): int { WholeSeconds(2 * ttl) }

    lemma TtlOrder()
      requires ttl > 0
      ensures 0 <= KeyTtl() <= SetTtl()
    {
    }

    constructor (ttl: int, now: int)
      ensures Valid() && online == map[] && unsure == {} && clock == now
      ensures this.ttl == if ttl <= 0 then 30 * SECOND else ttl
      ensures View(now, map[]) == Empty(this.ttl, now)
    {
      this.ttl := if ttl <= 0 then 30 * SECOND else ttl;
      keys, sets, online, unsure, clock := map[], map[], map[], {}, now;
    }

    /** Sets the device key, adds the device to the set and renews the set, giving up at the first failure. A time to
        live under one second is refused by the server before anything changes. */
    method SetOnline(user: string, device: string, now: int, up: bool, ghost others: map<nat, Op>, ghost id: nat)
      returns (ok: bool, ghost acts: seq<Action>)
      requires Valid() && clock <= now && id !in others
      modifies this
      ensures Valid() && clock == now
      ensures acts != [] && acts[0] == StartOnline(id, (user, device))
      ensures ok <==> KeyTtl() > 0 && |acts| == 4 && acts[1] == acts[2] == acts[3] == Call(id, Ok)
      ensures CallAt(old(View(now, others)), acts, id, View(now, others), Over(if ok then Finished else Failed))
      ensures (ok ==> KeyTtl() > 0) && (up && KeyTtl() > 0 ==> ok)
      ensures ok ==> online == old(online)[(user, device) := now] && unsure == old(unsure) - {(user, device)}
      ensures !ok ==> online == old(online) || online == old(online)[(user, device) := now]
      ensures !ok ==> unsure - {(user, device)} == old(unsure) - {(user, device)}
      ensures KeyTtl() == 0 ==> online == old(online) && unsure == old(unsure)
    {
      hide WholeSeconds, Keyed, Covered, CallAt;
      TtlOrder();
      Later(keys, online, sets, unsure, KeyTtl(), clock, now);
      clock := now;
      ghost var s := View(now, others);
      Starts(s, id, StartOnline(id, (user, device)), SetKey((user, device)));
      var stored := Outcome(up);
      acts := Steps(s, [StartOnline(id, (user, device))], id, View(now, others), SetKey((user, device)), stored);
      if KeyTtl() == 0 { return false, acts; }
      if !stored.Lost? {
        KeyKeeps(keys, online, sets, unsure, KeyTtl(), now, (user, device));
        keys := keys[(user, device) := now + KeyTtl()];
        online, unsure := online[(user, device) := now], unsure + {(user, device)};
      }
      if !stored.Ok? { return false, acts; }
      ok, acts := JoinAndRenew(user, device, now, up, s, id, acts);
    }

    /** The device's set, after its key. */
    method JoinAndRenew(user: string, device: string, now: int, up: bool,
                        ghost s: State, ghost id: nat, ghost taken: seq<Action>)
      returns (ok: bool, ghost acts: seq<Action>)
      requires Valid() && clock == now && (user, device) in unsure
      requires CallAt(s, taken, id, View(now, s.ops), AddDevice((user, device)))
      modifies this`sets, this`unsure
      ensures Valid() && (up ==> ok)
      ensures CallAt(s, acts, id, View(now, s.ops), Over(if ok then Finished else Failed)) && taken <= acts
      ensures ok <==> |acts| == |taken| + 2 && acts[|taken|] == acts[|taken| + 1] == Call(id, Ok)
      ensures unsure == old(unsure) - {(user, device)} || (!ok && unsure == old(unsure))
    {
      hide WholeSeconds, Keyed, Covered, CallAt;
      TtlOrder();
      var sadd := Outcome(up);
      acts := Steps(s, taken, id, View(now, s.ops), AddDevice((user, device)), sadd);
      if !sadd.Lost? {
        JoinKeeps(keys, sets, unsure, now, (user, device));
        sets := Joined(sets, (user, device), now);
      }
      if !sadd.Ok? { return false, acts; }
      var expire := Outcome(up);
      acts := Steps(s, acts, id, View(now, s.ops), RenewSet((user, device)), expire);
      if !expire.Lost? {
        RenewKeeps(keys, online, sets, unsure, KeyTtl(), SetTtl(), now, (user, device));
        sets := Renewed(sets, user, now + SetTtl(), now);
        unsure := unsure - {(user, device)};
      }
      ok := expire.Ok?;
    }

    /** Deletes the device key; removing the device from the set may fail unnoticed. */
    method SetOffline(user: string, device: string, now: int, up: bool, ghost others: map<nat, Op>, ghost id: nat)
      returns (ok: bool, ghost acts: seq<Action>)
      requires Valid() && clock <= now && id !in others
      modifies this
      ensures Valid() && clock == now && (up ==> ok)
      ensures |acts| >= 2 && acts[0] == StartOffline(id, (user, device)) && acts[1].Call? && (ok <==> acts[1].fault.Ok?)
      ensures CallAt(old(View(now, others)), acts, id, View(now, others), Over(if ok then Finished else Failed))
      ensures ok ==> online == old(online) - {(user, device)}
      ensures if online == old(online) - {(user, device)} then unsure == old(unsure) - {(user, device)}
              else !ok && online == old(online) && unsure == old(unsure)
    {
      hide WholeSeconds, CallAt, Keyed, Covered;
      Later(keys, online, sets, unsure, KeyTtl(), clock, now);
      DeleteKeeps(keys, online, sets, unsure, KeyTtl(), now, (user, device));
      clock := now;
      ghost var s := View(now, others);
      Starts(s, id, StartOffline(id, (user, device)), DeleteKey((user, device)));
      var del := Outcome(up);
      acts := Steps(s, [StartOffline(id, (user, device))], id, View(now, others), DeleteKey((user, device)), del);
      if !del.Lost? || (user, device) !in online {
        unsure := unsure - {(user, device)};
      }
      if !del.Lost? {
        keys, online := keys - {(user, device)}, online - {(user, device)};
      }
      if !del.Ok? { return false, acts; }
      acts := Remove(user, device, now, s, id, acts, DropLeft((user, device)));
      ok := true;
    }

    /** SREM of a device without a key; whether it worked is not looked at. */
    method Remove(user: string, device: string, now: int,
                  ghost s: State, ghost id: nat, ghost taken: seq<Action>, ghost op: Op)
      returns (ghost acts: seq<Action>)
      requires Valid() && clock == now
      requires (user, device) in keys ==> keys[(user, device)] <= now
      requires CallAt(s, taken, id, View(now, s.ops), op) && (op.DropLeft? || op.DropGone?) && op.p == (user, device)
      modifies this`sets
      ensures Valid() && (sets == old(sets) || sets == Removed(old(sets), (user, device), now))
      ensures CallAt(s, acts, id, View(now, s.ops), if op.DropLeft? then Over(Finished) else Rest(user, op.left, op.found))
      ensures taken <= acts && |acts| == |taken| + 1 && acts[|taken|].Call?
    {
      hide WholeSeconds, CallAt, Keyed, Covered;
      var srem := Outcome(false);
      acts := Steps(s, taken, id, View(now, s.ops), op, srem);
      if !srem.Lost? {
        RemoveKeeps(keys, sets, unsure, now, (user, device));
        sets := Removed(sets, (user, device), now);
      }
    }

    /** Looks at every device in the set and drops those without a key, which may fail unnoticed. Whatever was dropped
        before or is dropped now, an answer is the reference's, but that a device left `unsure` may be overlooked. */
    method IsOnline(user: string, now: int, up: bool, ghost others: map<nat, Op>, ghost id: nat)
      returns (r: Option<bool>, ghost acts: seq<Action>)
      requires Valid() && clock <= now && id !in others
      modifies this`sets, this`clock
      ensures Valid() && clock == now && (up ==> r.Some?)
      ensures |acts| >= 2 && acts[0] == StartIsOnline(id, user) && (r.Some? <==> acts[1] == Call(id, Ok) && AllLooked(acts))
      ensures CallAt(old(View(now, others)), acts, id, View(now, others),
                     Over(if r.Some? then Found(user, r.value) else Failed))
      ensures r.Some? ==> (r.value <==> Answer(old(View(now, others)), user))
      ensures r == Some(true) ==> Live(online, KeyTtl(), user, now)
      ensures r == Some(false) ==> forall p :: p in online && p.0 == user && now < online[p] + KeyTtl() ==> p in unsure
      ensures unsure == {} && r.Some? ==> (r.value <==> Live(online, KeyTtl(), user, now))
    {
      hide WholeSeconds, CallAt, Keyed, Covered, AllLooked, Lasts;
      Later(keys, online, sets, unsure, KeyTtl(), clock, now);
      clock := now;
      ghost var s := View(now, others);
      NoneLooked(id, user);
      Starts(s, id, StartIsOnline(id, user), ReadSet(user));
      var read := Outcome(up);
      acts := Steps(s, [StartIsOnline(id, user)], id, View(now, others), ReadSet(user), read);
      if !read.Ok? { return None, acts; }
      AnswerIsLive(s, unsure, user);
      var found, looked;
      looked, found, acts := LookAtAll(user, now, up, s, id, acts);
      r := if looked then Some(found) else None;
    }

    /** The loop over the user's devices, after the set has been read. */
    method LookAtAll(user: string, now: int, up: bool, ghost s: State, ghost id: nat, ghost taken: seq<Action>)
      returns (looked: bool, found: bool, ghost acts: seq<Action>)
      requires Valid() && clock == now && s.sets == sets && s.keys == keys && s.now == now && AllLooked(taken)
      requires CallAt(s, taken, id, View(now, s.ops), Rest(user, Devices(sets, user, now), false))
      modifies this`sets
      ensures Valid() && (up ==> looked) && taken <= acts && (looked <==> AllLooked(acts))
      ensures looked ==> (found <==> Answer(s, user))
      ensures CallAt(s, acts, id, View(now, s.ops), Over(if looked then Found(user, found) else Failed))
    {
      hide WholeSeconds, CallAt, Keyed, Covered, AllLooked, Lasts;
      acts := taken;
      var left := Devices(sets, user, now);
      found := false;
      ghost var all := left;
      while left != {}
        invariant Valid() && clock == now && left <= all
        invariant found <==> exists d :: d in all - left && Alive(s, (user, d))
        invariant CallAt(s, acts, id, View(now, s.ops), Rest(user, left, found)) && taken <= acts && AllLooked(acts)
        decreases left
      {
        var device :| device in left;
        assert left == left - {device} + {device};
        left := left - {device};
        ghost var was := found;
        var alive;
        looked, alive, acts := LookAt(user, device, now, up, left, found, s, id, acts);
        if !looked { return false, found, acts; }
        found := found || alive;
        assert was ==> exists d :: d in all - left - {device} && Alive(s, (user, d));
        assert alive ==> device in all - left;
      }
      assert all - left == all;
      looked := true;
    }

    /** One device of the loop: is its key there? If not it is dropped from the set. */
    method LookAt(user: string, device: string, now: int, up: bool, ghost left: set<string>, ghost found: bool,
                  ghost s: State, ghost id: nat, ghost taken: seq<Action>)
      returns (looked: bool, alive: bool, ghost acts: seq<Action>)
      requires Valid() && clock == now && device !in left
      requires CallAt(s, taken, id, View(now, s.ops), Loop(user, left + {device}, found))
      modifies this`sets
      ensures Valid() && (up ==> looked) && taken <= acts
      ensures alive <==> (user, device) in keys && now < keys[(user, device)]
      ensures CallAt(s, acts, id, View(now, s.ops), if looked then Rest(user, left, found || alive) else Over(Failed))
      ensures AllLooked(acts) <==> AllLooked(taken) && looked
    {
      hide WholeSeconds, CallAt, Keyed, Covered, AllLooked;
      acts := Picks(s, taken, id, View(now, s.ops), Loop(user, left + {device}, found), device);
      assert left + {device} - {device} == left;
      var there := Outcome(up);
      alive := (user, device) in keys && now < keys[(user, device)];
      acts := Steps(s, acts, id, View(now, s.ops), LookUp((user, device), left, found), there);
      looked := there.Ok?;
      if looked && !alive {
        acts := Remove(user, device, now, s, id, acts, DropGone((user, device), left, found));
      }
      LookedAtOne(taken, acts);
    }
  }

  /** With whole seconds the reference expires exactly at the time to live; otherwise up to a second early. */
  lemma WholeSecondsBound(ttl: int)
    requires ttl > 0
    ensures WholeSeconds(ttl) * 1_000_000 <= ttl < WholeSeconds(ttl) * 1_000_000 + SECOND
    ensures WholeSeconds(ttl) * 1_000_000 == ttl <==> ttl % SECOND == 0
    ensures 2 * WholeSeconds(ttl) <= WholeSeconds(2 * ttl)
  {
  }

  /** The reference with the time to live as configured, in nanoseconds. */
  predicate LiveFor(online: map<Device, int>, ttl: int, user: string, now: int) {
    exists p :: p in online && p.0 == user && (now - online[p]) * 1_000_000 < ttl
  }

  /** What the server is given, whole seconds, means the configured time to live for every history, user and time if
      and only if that is whole seconds; otherwise a device can be gone early, never late. */
  lemma ConfiguredTtlIff(ttl: int)
    requires ttl > 0
    ensures (forall online, user, now :: Live(online, WholeSeconds(ttl), user, now) <==> LiveFor(online, ttl, user, now))
       <==> ttl % SECOND == 0
    ensures forall online, user, now :: Live(online, WholeSeconds(ttl), user, now) ==> LiveFor(online, ttl, user, now)
  {
    WholeSecondsBound(ttl);
    forall online, user, now ensures Live(online, WholeSeconds(ttl), user, now) ==> LiveFor(online, ttl, user, now) {
      SameLife(online, ttl, user, now);
    }
    if ttl % SECOND == 0 {
      forall online, user, now ensures Live(online, WholeSeconds(ttl), user, now) <==> LiveFor(online, ttl, user, now) {
        SameLife(online, ttl, user, now);
      }
    } else {
      var online := map[("user", "device") := 0];
      assert ("user", "device") in online;
      assert LiveFor(online, ttl, "user", WholeSeconds(ttl)) && !Live(online, WholeSeconds(ttl), "user", WholeSeconds(ttl));
    }
  }

  lemma SameLife(online: map<Device, int>, ttl: int, user: string, now: int)
    requires ttl > 0
    ensures Live(online, WholeSeconds(ttl), user, now) ==> LiveFor(online, ttl, user, now)
    ensures ttl % SECOND == 0 && LiveFor(online, ttl, user, now) ==> Live(online, WholeSeconds(ttl), user, now)
  {
    WholeSecondsBound(ttl);
    hide WholeSeconds;
    if p :| p in online && p.0 == user && now < online[p] + WholeSeconds(ttl) {
      assert (now - online[p]) * 1_000_000 < ttl;
    }
    if ttl % SECOND == 0 {
      if p :| p in online && p.0 == user && (now - online[p]) * 1_000_000 < ttl {
        assert now < online[p] + WholeSeconds(ttl);
      }
    }
  }
}
