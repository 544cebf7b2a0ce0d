/** When presence is right: exactly which kinds of faults, races and delays can make it overlook a device that is
    online, and that without them it never does. */
module PresenceFaults {
  import opened Domain
  import opened Presence

  // ----- Kinds of faults -----

  datatype Stage =
    | SetsKey
    | AddsDevice
    | RenewsSet
    | DeletesKey
    | DropsLeft
    | ReadsSet
    | Loops
    | LooksUp
    | DropsGone
    | Ended

  function StageOf(op: Op): Stage {
    match op
    case SetKey(_) => SetsKey
    case AddDevice(_) => AddsDevice
    case RenewSet(_) => RenewsSet
    case DeleteKey(_) => DeletesKey
    case DropLeft(_) => DropsLeft
    case ReadSet(_) => ReadsSet
    case Loop(_, _, _) => Loops
    case LookUp(_, _, _) => LooksUp
    case DropGone(_, _, _) => DropsGone
    case Over(_) => Ended
  }

  /** A command that fails in some way; a call that stops; a device dropped from its set although its key has been set
      again meanwhile; a set that expires between the SADD and the EXPIRE of one SetOnline. */
  datatype Kind = Fails(at: Stage, fault: Fault) | Crashes(at: Stage) | Revived(at: Stage) | Lapsed

  predicate Lapses(sets: map<string, DeviceSet>, op: Op, now: int, later: int) {
    op.RenewSet? && Lasts(sets, op.p.0, now) && !Lasts(sets, op.p.0, later)
  }

  /** The call is about to take a device with a key out of its set. */
  predicate DropsAlive(s: State, op: Op) {
    (op.DropLeft? || op.DropGone?) && Alive(s, op.p) && op.p.1 in Devices(s.sets, op.p.0, s.now)
  }

  /** The kinds of faults a step shows. */
  function Shown(s: State, a: Action): set<Kind>
    requires Enabled(s, a)
  {
    match a
    case Elapse(d) => if exists id :: id in s.ops && Lapses(s.sets, s.ops[id], s.now, s.now + d) then {Lapsed} else {}
    case Call(id, fault) =>
      (if fault.Ok? then {} else {Fails(StageOf(s.ops[id]), fault)}) +
      (if !fault.Lost? && DropsAlive(s, s.ops[id]) then {Revived(StageOf(s.ops[id]))} else {})
    case Crash(id) => {Crashes(StageOf(s.ops[id]))}
    case _ => {}
  }

  /** A SetOnline must not set its key and report a failure; once it has set it, it must not lose a command or stop, nor
      be told that SADD failed, nor meet a set that expires before EXPIRE; and a device that is back must not be dropped
      by a SetOffline or an IsOnline begun before. Everything else is harmless: a SET that fails without effect, an
      EXPIRE that only seems to fail, any fault of a SetOffline or an IsOnline. */
  predicate Harmful(k: Kind) {
    match k
    case Fails(at, fault) =>
      (at.SetsKey? && fault.Unacked?) || (at.AddsDevice? && !fault.Ok?) || (at.RenewsSet? && fault.Lost?)
    case Crashes(at) => at.AddsDevice? || at.RenewsSet?
    case Revived(at) => at.DropsLeft? || at.DropsGone?
    case Lapsed => true
  }

  /** The run shows faults of these kinds only. */
  ghost predicate OnlyKinds(s: State, acts: seq<Action>, kinds: set<Kind>)
    requires Runs(s, acts)
    decreases |acts|
  {
    acts == [] || (Shown(s, acts[0]) <= kinds && OnlyKinds(Apply(s, acts[0]), acts[1..], kinds))
  }

  ghost predicate Harmless(kinds: set<Kind>) {
    forall k :: k in kinds ==> !Harmful(k)
  }

  // ----- Under any fault: nobody is shown online who is not -----

  ghost predicate History(s: State) {
    Keyed(s.keys, s.online, s.keyTtl, s.now) && 0 <= s.keyTtl <= s.setTtl
  }

  lemma StepKeepsHistory(s: State, a: Action)
    requires History(s) && Enabled(s, a)
    ensures History(Apply(s, a)) && Apply(s, a).keyTtl == s.keyTtl
  {
  }

  lemma {:induction false} RunKeepsHistory(s: State, acts: seq<Action>)
    requires History(s) && Runs(s, acts)
    ensures History(Exec(s, acts)) && Exec(s, acts).keyTtl == s.keyTtl
    decreases |acts|
  {
    if acts != [] {
      StepKeepsHistory(s, acts[0]);
      hide History, Enabled, Apply;
      RunKeepsHistory(Apply(s, acts[0]), acts[1..]);
    }
  }

  /** Whatever fails, crashes or interleaves, an uninterrupted IsOnline answers yes only for a user with a device that
      went online less than a time to live ago and not offline since. */
  lemma NeverFalselyOnline(ttl: int, now: int, acts: seq<Action>, user: string)
    requires ttl > 0 && Runs(Empty(ttl, now), acts) && Answer(Exec(Empty(ttl, now), acts), user)
    ensures Live(Exec(Empty(ttl, now), acts).online, WholeSeconds(ttl), user, Exec(Empty(ttl, now), acts).now)
  {
    var s := Empty(ttl, now);
    WholeSecondsBound(ttl);
    RunKeepsHistory(s, acts);
    var t := Exec(s, acts);
    var d :| d in Devices(t.sets, user, t.now) && Alive(t, (user, d));
    assert (user, d) in t.online;
  }

  // ----- Without harmful faults: every device with a key is in its set, or on its way there -----

  /** A SetOnline that will see to its device. */
  predicate Restores(sets: map<string, DeviceSet>, now: int, op: Op) {
    op.AddDevice? || (op.RenewSet? && op.p.1 in Devices(sets, op.p.0, now))
  }

  ghost function Pending(s: State): set<Device> {
    set id | id in s.ops && Restores(s.sets, s.now, s.ops[id]) :: s.ops[id].p
  }

  ghost predicate Tracked(s: State) {
    History(s) && Covered(s.keys, s.sets, Pending(s), s.now)
  }

  lemma IsPending(s: State, id: nat)
    requires id in s.ops && Restores(s.sets, s.now, s.ops[id])
    ensures s.ops[id].p in Pending(s)
  {
  }

  /** Calls other than `id` that would see to their devices still will, if the sets only grow and stay. */
  lemma OthersPending(s: State, t: State, id: nat, unsure: set<Device>)
    requires forall i :: i in s.ops && i != id ==> i in t.ops && t.ops[i] == s.ops[i]
    requires forall i :: i in s.ops && i != id && s.ops[i].RenewSet? && s.ops[i].p.1 in Devices(s.sets, s.ops[i].p.0, s.now) ==>
      s.ops[i].p.1 in Devices(t.sets, s.ops[i].p.0, t.now) || !Alive(t, s.ops[i].p)
    requires Covered(t.keys, t.sets, unsure, t.now)
    requires unsure <= Pending(s)
    requires id in s.ops && Restores(s.sets, s.now, s.ops[id]) ==> s.ops[id].p in Pending(t) || s.ops[id].p !in unsure
    ensures Covered(t.keys, t.sets, Pending(t), t.now)
  {
    forall p | Alive(t, p) && p in unsure ensures p in Pending(t) {
      var i :| i in s.ops && Restores(s.sets, s.now, s.ops[i]) && s.ops[i].p == p;
      if i != id {
        assert Restores(t.sets, t.now, t.ops[i]);
        IsPending(t, i);
      }
    }
  }

  lemma FailureShows(s: State, id: nat, fault: Fault)
    requires Enabled(s, Call(id, fault))
    ensures !fault.Ok? ==> Fails(StageOf(s.ops[id]), fault) in Shown(s, Call(id, fault))
  {
  }

  lemma RevivalShows(s: State, id: nat, fault: Fault)
    requires Enabled(s, Call(id, fault))
    ensures !fault.Lost? && DropsAlive(s, s.ops[id]) ==> Revived(StageOf(s.ops[id])) in Shown(s, Call(id, fault))
  {
  }

  lemma SetKeeps(s: State, id: nat, fault: Fault)
    requires Tracked(s) && Enabled(s, Call(id, fault)) && Harmless(Shown(s, Call(id, fault))) && s.ops[id].SetKey?
    ensures Tracked(Apply(s, Call(id, fault)))
  {
    var t := Apply(s, Call(id, fault));
    var p := s.ops[id].p;
    FailureShows(s, id, fault);
    if fault.Ok? && s.keyTtl > 0 {
      KeyKeeps(s.keys, s.online, s.sets, Pending(s), s.keyTtl, s.now, p);
      IsPending(t, id);
      forall q | q in Pending(s) ensures q in Pending(t) {
        var i :| i in s.ops && Restores(s.sets, s.now, s.ops[i]) && s.ops[i].p == q;
        IsPending(t, i);
      }
    } else {
      OthersPending(s, t, id, Pending(s));
    }
  }

  lemma AddKeeps(s: State, id: nat, fault: Fault)
    requires Tracked(s) && Enabled(s, Call(id, fault)) && Harmless(Shown(s, Call(id, fault))) && s.ops[id].AddDevice?
    ensures Tracked(Apply(s, Call(id, fault)))
  {
    var t := Apply(s, Call(id, fault));
    FailureShows(s, id, fault);
    JoinKeeps(s.keys, s.sets, Pending(s), s.now, s.ops[id].p);
    IsPending(t, id);
    OthersPending(s, t, id, Pending(s));
  }

  lemma RenewalKeeps(s: State, id: nat, fault: Fault)
    requires Tracked(s) && Enabled(s, Call(id, fault)) && Harmless(Shown(s, Call(id, fault))) && s.ops[id].RenewSet?
    ensures Tracked(Apply(s, Call(id, fault)))
  {
    var t := Apply(s, Call(id, fault));
    var p := s.ops[id].p;
    FailureShows(s, id, fault);
    if p.1 in Devices(s.sets, p.0, s.now) {
      RenewKeeps(s.keys, s.online, s.sets, Pending(s), s.keyTtl, s.setTtl, s.now, p);
      OthersPending(s, t, id, Pending(s) - {p});
    } else {
      assert Covered(t.keys, t.sets, Pending(s), t.now);
      OthersPending(s, t, id, Pending(s));
    }
  }

  lemma DeleteKeyKeeps(s: State, id: nat, fault: Fault)
    requires Tracked(s) && Enabled(s, Call(id, fault)) && s.ops[id].DeleteKey?
    ensures Tracked(Apply(s, Call(id, fault)))
  {
    DeleteKeeps(s.keys, s.online, s.sets, Pending(s), s.keyTtl, s.now, s.ops[id].p);
    OthersPending(s, Apply(s, Call(id, fault)), id, if fault.Lost? then Pending(s) else Pending(s) - {s.ops[id].p});
  }

  lemma DropKeeps(s: State, id: nat, fault: Fault)
    requires Tracked(s) && Enabled(s, Call(id, fault)) && Harmless(Shown(s, Call(id, fault)))
    requires s.ops[id].DropLeft? || s.ops[id].DropGone?
    ensures Tracked(Apply(s, Call(id, fault)))
  {
    var t := Apply(s, Call(id, fault));
    var p := s.ops[id].p;
    RevivalShows(s, id, fault);
    assert fault.Lost? || !DropsAlive(s, s.ops[id]);
    hide Shown, Harmless, StageOf, Keyed, NextOp;
    if !fault.Lost? {
      RemoveKeeps(s.keys, s.sets, Pending(s), s.now, p);
    }
    OthersPending(s, t, id, Pending(s));
  }

  lemma ReadKeeps(s: State, id: nat, fault: Fault)
    requires Tracked(s) && Enabled(s, Call(id, fault)) && (s.ops[id].ReadSet? || s.ops[id].LookUp?)
    ensures Tracked(Apply(s, Call(id, fault)))
  {
    OthersPending(s, Apply(s, Call(id, fault)), id, Pending(s));
  }

  lemma ElapseKeeps(s: State, d: nat)
    requires Tracked(s) && Harmless(Shown(s, Elapse(d)))
    ensures Tracked(Apply(s, Elapse(d)))
  {
    var t := Apply(s, Elapse(d));
    Later(s.keys, s.online, s.sets, Pending(s), s.keyTtl, s.now, t.now);
    assert !exists id :: id in s.ops && Lapses(s.sets, s.ops[id], s.now, s.now + d) by {
      if id :| id in s.ops && Lapses(s.sets, s.ops[id], s.now, s.now + d) {
        assert Lapsed in Shown(s, Elapse(d));
      }
    }
    forall q | q in Pending(s) ensures q in Pending(t) {
      var i :| i in s.ops && Restores(s.sets, s.now, s.ops[i]) && s.ops[i].p == q;
      assert !Lapses(s.sets, s.ops[i], s.now, s.now + d);
      IsPending(t, i);
    }
  }

  /** Every step without a harmful fault keeps each device with a key in its set, or on its way there. */
  lemma StepKeepsTracked(s: State, a: Action)
    requires Tracked(s) && Enabled(s, a) && Harmless(Shown(s, a))
    ensures Tracked(Apply(s, a))
  {
    hide Tracked, Harmless, Shown;
    match a
    case Elapse(d) => ElapseKeeps(s, d);
    case Call(id, fault) =>
      match s.ops[id] {
        case SetKey(_) => SetKeeps(s, id, fault);
        case AddDevice(_) => AddKeeps(s, id, fault);
        case RenewSet(_) => RenewalKeeps(s, id, fault);
        case DeleteKey(_) => DeleteKeyKeeps(s, id, fault);
        case DropLeft(_) => DropKeeps(s, id, fault);
        case DropGone(_, _, _) => DropKeeps(s, id, fault);
        case _ => ReadKeeps(s, id, fault);
      }
    case Crash(id) => CrashKeeps(s, id);
    case _ => StartKeeps(s, a);
  }

  lemma CrashKeeps(s: State, id: nat)
    requires Tracked(s) && Enabled(s, Crash(id)) && Harmless(Shown(s, Crash(id)))
    ensures Tracked(Apply(s, Crash(id)))
  {
    assert Crashes(StageOf(s.ops[id])) in Shown(s, Crash(id));
    OthersPending(s, Apply(s, Crash(id)), id, Pending(s));
  }

  lemma StartKeeps(s: State, a: Action)
    requires Tracked(s) && Enabled(s, a) && (a.StartOnline? || a.StartOffline? || a.StartIsOnline? || a.Pick?)
    ensures Tracked(Apply(s, a))
  {
    OthersPending(s, Apply(s, a), a.id, Pending(s));
  }

  lemma {:induction false} RunTracks(s: State, acts: seq<Action>, kinds: set<Kind>)
    requires Tracked(s) && Runs(s, acts) && OnlyKinds(s, acts, kinds) && Harmless(kinds)
    ensures Tracked(Exec(s, acts))
    decreases |acts|
  {
    hide Tracked;
    if acts != [] {
      StepKeepsTracked(s, acts[0]);
      hide Enabled, Apply, Shown;
      RunTracks(Apply(s, acts[0]), acts[1..], kinds);
    }
  }

  /** No SetOnline of the user has set its key and is not over. */
  predicate Settled(s: State, user: string) {
    forall id :: id in s.ops && (s.ops[id].AddDevice? || s.ops[id].RenewSet?) ==> s.ops[id].p.0 != user
  }

  /** An uninterrupted IsOnline answers as the reference. */
  predicate Right(s: State, user: string) {
    Answer(s, user) <==> Live(s.online, s.keyTtl, user, s.now)
  }

  lemma TrackedIsRight(s: State, user: string)
    requires Tracked(s) && Settled(s, user)
    ensures Right(s, user)
  {
    if p :| p in s.online && p.0 == user && s.now < s.online[p] + s.keyTtl {
      assert p !in Pending(s);
      assert p.1 in Devices(s.sets, user, s.now) && Alive(s, (user, p.1)) && p == (user, p.1);
    }
    if d :| d in Devices(s.sets, user, s.now) && Alive(s, (user, d)) {
      assert (user, d) in s.online;
    }
  }

  // ----- Runs -----

  /** Some run with faults of these kinds only leads from `s` to `t`. */
  ghost predicate Leads(kinds: set<Kind>, s: State, t: State) {
    exists acts :: Runs(s, acts) && OnlyKinds(s, acts, kinds) && Exec(s, acts) == t
  }

  lemma {:induction false} StillOnly(kinds: set<Kind>, s: State, acts: seq<Action>, a: Action)
    requires Runs(s, acts) && OnlyKinds(s, acts, kinds)
    requires Enabled(Exec(s, acts), a) && Shown(Exec(s, acts), a) <= kinds
    ensures Runs(s, acts + [a]) && OnlyKinds(s, acts + [a], kinds)
    decreases |acts|
  {
    OneMore(s, acts, a);
    hide Enabled, Shown, Apply;
    if acts == [] {
      assert (acts + [a])[1..] == [];
    } else {
      assert (acts + [a])[1..] == acts[1..] + [a];
      StillOnly(kinds, Apply(s, acts[0]), acts[1..], a);
    }
  }

  lemma Goes(kinds: set<Kind>, s: State, t: State, a: Action)
    requires Leads(kinds, s, t) && Enabled(t, a) && Shown(t, a) <= kinds
    ensures Leads(kinds, s, Apply(t, a))
  {
    hide Enabled, Shown, Apply, OnlyKinds, Runs, Exec;
    var acts :| Runs(s, acts) && OnlyKinds(s, acts, kinds) && Exec(s, acts) == t;
    OneMore(s, acts, a);
    StillOnly(kinds, s, acts, a);
    assert Runs(s, acts + [a]);
  }

  /** A call takes its next step without a fault, and without dropping a device that is back. */
  lemma Proceeds(kinds: set<Kind>, s: State, t: State, id: nat)
    requires Leads(kinds, s, t) && Enabled(t, Call(id, Ok)) && !DropsAlive(t, t.ops[id])
    ensures Leads(kinds, s, Go(Effect(t, t.ops[id]), id, NextOp(t, t.ops[id], Ok)))
  {
    hide Leads;
    Goes(kinds, s, t, Call(id, Ok));
  }

  // ----- Stretches of calls without faults -----

  /** The one user and device of these runs. */
  function Only(p: Device, keyTtl: int, setTtl: int, now: int, seen: int, end: Option<int>, ops: map<nat, Op>): State {
    State(keyTtl, setTtl, now, map[p := seen + keyTtl], map[p.0 := DeviceSet({p.1}, end)], map[p := seen], ops)
  }

  /** No key but the device's, and no set but its user's, with it in. */
  ghost predicate About(t: State, p: Device, end: Option<int>) {
    t.keys.Keys <= {p} && t.online.Keys <= {p} && t.sets == map[p.0 := DeviceSet({p.1}, end)] && t.keyTtl > 0
  }

  /** A SetOnline that has set its key. */
  lemma Sets(kinds: set<Kind>, s: State, t: State, id: nat, p: Device)
    requires Leads(kinds, s, t) && id !in t.ops && t.keyTtl > 0
    ensures Leads(kinds, s, Go(Effect(t, SetKey(p)), id, AddDevice(p)))
  {
    hide Leads;
    Goes(kinds, s, t, StartOnline(id, p));
    Proceeds(kinds, s, Go(t, id, SetKey(p)), id);
    assert t.ops[id := SetKey(p)][id := AddDevice(p)] == t.ops[id := AddDevice(p)];
  }

  /** The same where nobody else is known. */
  lemma SetsOnly(kinds: set<Kind>, s: State, t: State, id: nat, p: Device, end: Option<int>)
    requires Leads(kinds, s, t) && id !in t.ops && About(t, p, end)
    ensures Leads(kinds, s, Only(p, t.keyTtl, t.setTtl, t.now, t.now, end, t.ops[id := AddDevice(p)]))
  {
    hide Leads;
    Sets(kinds, s, t, id, p);
    assert t.keys[p := t.now + t.keyTtl] == map[p := t.now + t.keyTtl];
    assert t.online[p := t.now] == map[p := t.now];
  }

  /** A SetOnline that has added its device to a set that stands. */
  lemma Adds(kinds: set<Kind>, s: State, t: State, id: nat, p: Device, end: Option<int>)
    requires Leads(kinds, s, t) && id !in t.ops && About(t, p, end) && Lasts(t.sets, p.0, t.now)
    ensures Leads(kinds, s, Only(p, t.keyTtl, t.setTtl, t.now, t.now, end, t.ops[id := RenewSet(p)]))
  {
    hide Leads;
    SetsOnly(kinds, s, t, id, p, end);
    var t1 := Only(p, t.keyTtl, t.setTtl, t.now, t.now, end, t.ops[id := AddDevice(p)]);
    Proceeds(kinds, s, t1, id);
    assert {p.1} + {p.1} == {p.1};
    assert Joined(t1.sets, p, t1.now) == t1.sets;
    assert t1.ops[id := RenewSet(p)] == t.ops[id := RenewSet(p)];
  }

  lemma Renews(kinds: set<Kind>, s: State, t: State, id: nat, p: Device, end: Option<int>)
    requires Leads(kinds, s, t) && id !in t.ops && About(t, p, end) && Lasts(t.sets, p.0, t.now)
    ensures Leads(kinds, s, Only(p, t.keyTtl, t.setTtl, t.now, t.now, Some(t.now + t.setTtl), t.ops[id := Over(Finished)]))
  {
    hide Leads;
    Adds(kinds, s, t, id, p, end);
    var t1 := Only(p, t.keyTtl, t.setTtl, t.now, t.now, end, t.ops[id := RenewSet(p)]);
    Proceeds(kinds, s, t1, id);
    assert Renewed(t1.sets, p.0, t1.now + t1.setTtl, t1.now) == map[p.0 := DeviceSet({p.1}, Some(t.now + t.setTtl))];
    assert t1.ops[id := Over(Finished)] == t.ops[id := Over(Finished)];
  }

  /** The device comes online for the first time, at time zero. */
  lemma ComesFirst(kinds: set<Kind>, ttl: int, p: Device)
    requires WholeSeconds(ttl) > 0
    ensures Leads(kinds, Empty(ttl, 0), Only(p, WholeSeconds(ttl), WholeSeconds(2 * ttl), 0, 0, Some(WholeSeconds(2 * ttl)),
                                             map[0 := Over(Finished)]))
  {
    var s := Empty(ttl, 0);
    assert Runs(s, []) && OnlyKinds(s, [], kinds) && Exec(s, []) == s;
    hide Leads, WholeSeconds;
    Sets(kinds, s, s, 0, p);
    var t := s.(keys := s.keys[p := s.keyTtl], online := s.online[p := 0], ops := s.ops[0 := AddDevice(p)]);
    Proceeds(kinds, s, t, 0);
    var t1 := Only(p, s.keyTtl, s.setTtl, 0, 0, None, map[0 := RenewSet(p)]);
    assert Go(Effect(t, AddDevice(p)), 0, RenewSet(p)) == t1;
    Proceeds(kinds, s, t1, 0);
    assert Renewed(t1.sets, p.0, s.setTtl, 0) == map[p.0 := DeviceSet({p.1}, Some(s.setTtl))];
    assert t1.ops[0 := Over(Finished)] == map[0 := Over(Finished)];
  }

  // ----- Wrong ends -----

  /** With faults of these kinds only, some run from an empty store ends, with no SetOnline of a user under way, with an
      answer about that user that is not right. */
  ghost predicate Errs(kinds: set<Kind>, ttl: int) {
    exists t, user :: Leads(kinds, Empty(ttl, 0), t) && Settled(t, user) && !Right(t, user)
  }

  /** A device that is live and in no set that stands is overlooked. */
  lemma Overlooked(kinds: set<Kind>, ttl: int, t: State, p: Device)
    requires Leads(kinds, Empty(ttl, 0), t) && Settled(t, p.0) && p in t.online && t.now < t.online[p] + t.keyTtl
    requires p.0 !in t.sets || (t.sets[p.0].expiry.Some? && t.sets[p.0].expiry.value <= t.now)
    ensures Errs(kinds, ttl)
  {
    hide Leads;
    assert Live(t.online, t.keyTtl, p.0, t.now) && !Answer(t, p.0);
  }

  // ----- A fault before the device is in any set -----

  lemma FirstErrs(kinds: set<Kind>, k: Kind, ttl: int, p: Device)
    requires WholeSeconds(ttl) > 0
    requires k in kinds && (k == Fails(SetsKey, Unacked) || k == Fails(AddsDevice, Lost) || k == Crashes(AddsDevice))
    ensures Errs(kinds, ttl)
  {
    var s := Empty(ttl, 0);
    assert Runs(s, []) && OnlyKinds(s, [], kinds) && Exec(s, []) == s;
    hide Leads, WholeSeconds;
    if k.at.SetsKey? {
      Goes(kinds, s, s, StartOnline(0, p));
      var t := Go(s, 0, SetKey(p));
      Goes(kinds, s, t, Call(0, Unacked));
      Overlooked(kinds, ttl, Apply(t, Call(0, Unacked)), p);
    } else {
      Sets(kinds, s, s, 0, p);
      var t := s.(keys := s.keys[p := s.keyTtl], online := s.online[p := 0], ops := s.ops[0 := AddDevice(p)]);
      var a := if k.Fails? then Call(0, Lost) else Crash(0);
      Goes(kinds, s, t, a);
      Overlooked(kinds, ttl, Apply(t, a), p);
    }
  }

  // ----- A set that is not renewed -----

  /** Just before its set expires the device comes again and has set its key, or has also been added to the set. */
  lemma ComesLate(kinds: set<Kind>, ttl: int, p: Device, added: bool)
    requires WholeSeconds(ttl) > 0
    ensures var end := WholeSeconds(2 * ttl);
      Leads(kinds, Empty(ttl, 0), Only(p, WholeSeconds(ttl), end, end - 1, end - 1, Some(end),
                                       map[0 := Over(Finished), 1 := if added then RenewSet(p) else AddDevice(p)]))
  {
    ComesFirst(kinds, ttl, p);
    var s, end := Empty(ttl, 0), WholeSeconds(2 * ttl);
    assert end > 0;
    hide Leads, WholeSeconds;
    var t := Only(p, s.keyTtl, end, 0, 0, Some(end), map[0 := Over(Finished)]);
    Goes(kinds, s, t, Elapse(end - 1));
    var t1 := Only(p, s.keyTtl, end, end - 1, 0, Some(end), map[0 := Over(Finished)]);
    if added {
      Adds(kinds, s, t1, 1, p, Some(end));
      assert t1.ops[1 := RenewSet(p)] == map[0 := Over(Finished), 1 := RenewSet(p)];
    } else {
      SetsOnly(kinds, s, t1, 1, p, Some(end));
      assert t1.ops[1 := AddDevice(p)] == map[0 := Over(Finished), 1 := AddDevice(p)];
    }
  }

  /** Its SetOnline ends without renewing the set, which expires a moment later; the key does not. */
  lemma LateErrs(kinds: set<Kind>, k: Kind, ttl: int, p: Device)
    requires WholeSeconds(ttl) > 0
    requires k in kinds && (k == Fails(AddsDevice, Unacked) || k == Fails(RenewsSet, Lost) || k == Crashes(RenewsSet))
    ensures Errs(kinds, ttl)
  {
    ComesLate(kinds, ttl, p, k.at.RenewsSet?);
    var s, end := Empty(ttl, 0), WholeSeconds(2 * ttl);
    assert 1 < s.keyTtl;
    hide Leads, WholeSeconds;
    var ops := map[0 := Over(Finished), 1 := if k.at.RenewsSet? then RenewSet(p) else AddDevice(p)];
    var t := Only(p, s.keyTtl, end, end - 1, end - 1, Some(end), ops);
    var a := if k.Fails? then Call(1, k.fault) else Crash(1);
    Goes(kinds, s, t, a);
    var t1 := Apply(t, a);
    assert t1.sets == t.sets by {
      assert {p.1} + {p.1} == {p.1};
    }
    Goes(kinds, s, t1, Elapse(1));
    Overlooked(kinds, ttl, Apply(t1, Elapse(1)), p);
  }

  /** The set expires just before the SetOnline that added the device to it renews it. */
  lemma LapseErrs(kinds: set<Kind>, ttl: int, p: Device)
    requires WholeSeconds(ttl) > 0 && Lapsed in kinds
    ensures Errs(kinds, ttl)
  {
    ComesLate(kinds, ttl, p, true);
    var s, end := Empty(ttl, 0), WholeSeconds(2 * ttl);
    assert 1 < s.keyTtl;
    hide Leads, WholeSeconds;
    var t := Only(p, s.keyTtl, end, end - 1, end - 1, Some(end), map[0 := Over(Finished), 1 := RenewSet(p)]);
    Goes(kinds, s, t, Elapse(1));
    var t1 := Apply(t, Elapse(1));
    Proceeds(kinds, s, t1, 1);
    Overlooked(kinds, ttl, Go(Effect(t1, RenewSet(p)), 1, Over(Finished)), p);
  }

  // ----- A device that comes back before an older call drops it -----

  /** The device has gone offline by its own SetOffline, which is about to drop it. */
  lemma LeftNotDropped(kinds: set<Kind>, ttl: int, p: Device) returns (t: State, end: int)
    requires WholeSeconds(ttl) > 0
    ensures Leads(kinds, Empty(ttl, 0), t) && About(t, p, Some(end)) && Lasts(t.sets, p.0, t.now)
    ensures t.keyTtl == WholeSeconds(ttl) && t.setTtl > 0 && t.ops == map[0 := Over(Finished), 1 := DropLeft(p)]
  {
    ComesFirst(kinds, ttl, p);
    var s := Empty(ttl, 0);
    end := WholeSeconds(2 * ttl);
    hide Leads, WholeSeconds;
    t := Only(p, s.keyTtl, end, 0, 0, Some(end), map[0 := Over(Finished)]);
    Goes(kinds, s, t, StartOffline(1, p));
    t := Go(t, 1, DeleteKey(p));
    Proceeds(kinds, s, t, 1);
    t := Go(Effect(t, DeleteKey(p)), 1, DropLeft(p));
  }

  /** Its key has expired and an IsOnline has begun to look at the set. */
  lemma SetRead(kinds: set<Kind>, ttl: int, p: Device) returns (t: State, end: int)
    requires WholeSeconds(ttl) > 0
    ensures Leads(kinds, Empty(ttl, 0), t) && About(t, p, Some(end)) && Lasts(t.sets, p.0, t.now) && !Alive(t, p)
    ensures t.keyTtl == WholeSeconds(ttl) && t.setTtl > 0 && t.ops == map[0 := Over(Finished), 1 := Loop(p.0, {p.1}, false)]
  {
    ComesFirst(kinds, ttl, p);
    WholeSecondsBound(ttl);
    var s := Empty(ttl, 0);
    end := WholeSeconds(2 * ttl);
    hide Leads, WholeSeconds;
    t := Only(p, s.keyTtl, end, 0, 0, Some(end), map[0 := Over(Finished)]);
    Goes(kinds, s, t, Elapse(s.keyTtl));
    t := Only(p, s.keyTtl, end, s.keyTtl, 0, Some(end), map[0 := Over(Finished)]);
    Goes(kinds, s, t, StartIsOnline(1, p.0));
    t := Go(t, 1, ReadSet(p.0));
    Proceeds(kinds, s, t, 1);
    t := Go(t, 1, Loop(p.0, {p.1}, false));
  }

  /** It found no key and is about to drop the device. */
  lemma GoneNotDropped(kinds: set<Kind>, ttl: int, p: Device) returns (t: State, end: int)
    requires WholeSeconds(ttl) > 0
    ensures Leads(kinds, Empty(ttl, 0), t) && About(t, p, Some(end)) && Lasts(t.sets, p.0, t.now)
    ensures t.keyTtl == WholeSeconds(ttl) && t.setTtl > 0 && t.ops == map[0 := Over(Finished), 1 := DropGone(p, {}, false)]
  {
    t, end := SetRead(kinds, ttl, p);
    var s := Empty(ttl, 0);
    hide Leads, WholeSeconds;
    Goes(kinds, s, t, Pick(1, p.1));
    assert {p.1} - {p.1} == {};
    t := Go(t, 1, LookUp(p, {}, false));
    Proceeds(kinds, s, t, 1);
    t := Go(t, 1, DropGone(p, {}, false));
  }

  lemma RevivalErrs(kinds: set<Kind>, ttl: int, p: Device, left: bool)
    requires WholeSeconds(ttl) > 0 && Revived(if left then DropsLeft else DropsGone) in kinds
    ensures Errs(kinds, ttl)
  {
    var t, end;
    if left { t, end := LeftNotDropped(kinds, ttl, p); } else { t, end := GoneNotDropped(kinds, ttl, p); }
    var s := Empty(ttl, 0);
    hide Leads, WholeSeconds;
    Renews(kinds, s, t, 2, p, Some(end));
    var t1 := Only(p, t.keyTtl, t.setTtl, t.now, t.now, Some(t.now + t.setTtl), t.ops[2 := Over(Finished)]);
    Goes(kinds, s, t1, Call(1, Ok));
    assert {p.1} - {p.1} == {};
    Overlooked(kinds, ttl, Apply(t1, Call(1, Ok)), p);
  }

  // ----- The exact condition -----

  /** Each harmful kind is: some run that shows no other kind ends with a live device overlooked. */
  lemma HarmfulErrs(kinds: set<Kind>, k: Kind, ttl: int)
    requires WholeSeconds(ttl) > 0 && k in kinds && Harmful(k)
    ensures Errs(kinds, ttl)
  {
    hide Errs, WholeSeconds;
    var p := ("user", "device");
    match k
    case Lapsed => LapseErrs(kinds, ttl, p);
    case Revived(at) => RevivalErrs(kinds, ttl, p, at.DropsLeft?);
    case Crashes(at) => if at.AddsDevice? { FirstErrs(kinds, k, ttl, p); } else { LateErrs(kinds, k, ttl, p); }
    case Fails(at, fault) =>
      if at.RenewsSet? || (at.AddsDevice? && fault.Unacked?) { LateErrs(kinds, k, ttl, p); } else { FirstErrs(kinds, k, ttl, p); }
  }

  lemma BadRun(kinds: set<Kind>, ttl: int) returns (acts: seq<Action>, user: string)
    requires WholeSeconds(ttl) > 0 && !Harmless(kinds)
    ensures var s := Empty(ttl, 0);
      Runs(s, acts) && OnlyKinds(s, acts, kinds) && Settled(Exec(s, acts), user) && !Right(Exec(s, acts), user)
  {
    var k :| k in kinds && Harmful(k);
    HarmfulErrs(kinds, k, ttl);
    hide Harmful, Harmless, Runs, Exec, OnlyKinds, Settled, Right, Empty, WholeSeconds;
    var t, u :| Leads(kinds, Empty(ttl, 0), t) && Settled(t, u) && !Right(t, u);
    user := u;
    acts :| Runs(Empty(ttl, 0), acts) && OnlyKinds(Empty(ttl, 0), acts, kinds) && Exec(Empty(ttl, 0), acts) == t;
  }

  /** Without harmful faults, or with a time to live so short that no key is ever set, presence is right. */
  lemma PresenceIsRight(ttl: int, now: int, acts: seq<Action>, kinds: set<Kind>, user: string)
    requires ttl > 0 && (WholeSeconds(ttl) == 0 || Harmless(kinds))
    requires Runs(Empty(ttl, now), acts) && OnlyKinds(Empty(ttl, now), acts, kinds) && Settled(Exec(Empty(ttl, now), acts), user)
    ensures Right(Exec(Empty(ttl, now), acts), user)
  {
    var s := Empty(ttl, now);
    WholeSecondsBound(ttl);
    if WholeSeconds(ttl) == 0 {
      RunKeepsHistory(s, acts);
      hide Runs, Exec, OnlyKinds;
    } else {
      assert Tracked(s);
      RunTracks(s, acts, kinds);
      TrackedIsRight(Exec(s, acts), user);
    }
  }

  /** For any set of kinds of faults: after every run from an empty store that shows these kinds only, whatever the
      interleaving and the delays, an uninterrupted IsOnline answers right for every user without a SetOnline under way
      if and only if none of the kinds is harmful, or keys live for under a second, so that none is ever set. */
  lemma PresenceExactIff(ttl: int, kinds: set<Kind>)
    requires ttl > 0
    ensures WholeSeconds(ttl) == 0 || Harmless(kinds) <==>
      forall now, acts, user ::
        Runs(Empty(ttl, now), acts) && OnlyKinds(Empty(ttl, now), acts, kinds) && Settled(Exec(Empty(ttl, now), acts), user) ==>
        Right(Exec(Empty(ttl, now), acts), user)
  {
    hide Harmless, OnlyKinds, Settled, Right, Runs, Exec, Empty;
    if WholeSeconds(ttl) == 0 || Harmless(kinds) {
      forall now, acts, user |
        Runs(Empty(ttl, now), acts) && OnlyKinds(Empty(ttl, now), acts, kinds) && Settled(Exec(Empty(ttl, now), acts), user)
        ensures Right(Exec(Empty(ttl, now), acts), user)
      {
        PresenceIsRight(ttl, now, acts, kinds, user);
      }
    } else {
      assert WholeSeconds(ttl) > 0;
      var acts, user := BadRun(kinds, ttl);
    }
  }

  // ----- An IsOnline among other calls -----

  /** The user was live at some point of the run. */
  ghost predicate WasLive(s: State, acts: seq<Action>, user: string)
    requires Runs(s, acts)
    decreases |acts|
  {
    || Live(s.online, s.keyTtl, user, s.now)
    || (acts != [] && WasLive(Apply(s, acts[0]), acts[1..], user))
  }

  /** The device was live all the time. */
  ghost predicate StaysLive(s: State, acts: seq<Action>, p: Device)
    requires Runs(s, acts)
    decreases |acts|
  {
    && p in s.online && s.now < s.online[p] + s.keyTtl
    && (acts != [] ==> StaysLive(Apply(s, acts[0]), acts[1..], p))
  }

  /** The call has found no device, and is about this user. */
  predicate Unseen(op: Op, user: string) {
    match op
    case ReadSet(u) => u == user
    case Loop(u, _, found) => u == user && !found
    case LookUp(p, _, found) => p.0 == user && !found
    case DropGone(p, _, found) => p.0 == user && !found
    case Over(reply) => reply.Found? ==> !reply.online
    case _ => false
  }

  /** The call has found some device, or will still look at this one. */
  predicate Sees(op: Op, p: Device) {
    match op
    case Loop(user, left, found) => user == p.0 && (found || p.1 in left)
    case LookUp(q, left, found) => q.0 == p.0 && (found || p.1 in left || q == p)
    case DropGone(q, left, found) => q.0 == p.0 && (found || p.1 in left)
    case Over(reply) => reply.Found? ==> reply.online
    case _ => false
  }

  lemma {:induction false} StaysUnseen(s: State, acts: seq<Action>, id: nat, user: string)
    requires History(s) && Runs(s, acts) && Crash(id) !in acts && id in s.ops && Unseen(s.ops[id], user)
    requires !WasLive(s, acts, user)
    ensures id in Exec(s, acts).ops && Unseen(Exec(s, acts).ops[id], user)
    decreases |acts|
  {
    if acts != [] {
      StepKeepsHistory(s, acts[0]);
      UnseenStep(s, acts[0], id, user);
      hide History, Enabled, Apply, Unseen;
      StaysUnseen(Apply(s, acts[0]), acts[1..], id, user);
    }
  }

  lemma UnseenStep(s: State, a: Action, id: nat, user: string)
    requires History(s) && Enabled(s, a) && a != Crash(id) && id in s.ops && Unseen(s.ops[id], user)
    requires !Live(s.online, s.keyTtl, user, s.now)
    ensures id in Apply(s, a).ops && Unseen(Apply(s, a).ops[id], user)
  {
    var op := s.ops[id];
    if a.Call? && a.id == id && op.LookUp? {
      assert op.p in s.online ==> !(s.now < s.online[op.p] + s.keyTtl);
    }
  }

  lemma {:induction false} StillSees(s: State, acts: seq<Action>, id: nat, p: Device)
    requires History(s) && Runs(s, acts) && Crash(id) !in acts && id in s.ops && Sees(s.ops[id], p)
    requires StaysLive(s, acts, p)
    ensures id in Exec(s, acts).ops && Sees(Exec(s, acts).ops[id], p)
    decreases |acts|
  {
    if acts != [] {
      StepKeepsHistory(s, acts[0]);
      SeesStep(s, acts[0], id, p);
      hide History, Enabled, Apply, Sees;
      StillSees(Apply(s, acts[0]), acts[1..], id, p);
    }
  }

  lemma SeesStep(s: State, a: Action, id: nat, p: Device)
    requires History(s) && Enabled(s, a) && a != Crash(id) && id in s.ops && Sees(s.ops[id], p)
    requires p in s.online && s.now < s.online[p] + s.keyTtl
    ensures id in Apply(s, a).ops && Sees(Apply(s, a).ops[id], p)
  {
    assert Alive(s, p);
  }

  /** Whatever other calls come between the commands of an IsOnline: if it answers yes the user was live at some point of
      the call; and if it read the set in a run without harmful faults and with no SetOnline of the user under way, and
      some device of the user was live until it answered, it answers yes. */
  lemma AnswerSpansCall(ttl: int, now: int, before: seq<Action>, kinds: set<Kind>, acts: seq<Action>, id: nat, user: string,
                        online: bool)
    requires ttl > 0 && Runs(Empty(ttl, now), before)
    requires var s := Exec(Empty(ttl, now), before);
      id in s.ops && s.ops[id] == ReadSet(user) && Runs(s, acts) && acts != [] && acts[0] == Call(id, Ok) && Crash(id) !in acts
    requires var t := Exec(Exec(Empty(ttl, now), before), acts); id in t.ops && t.ops[id] == Over(Presence.Found(user, online))
    ensures var s := Exec(Empty(ttl, now), before);
      && (online ==> WasLive(s, acts, user))
      && (OnlyKinds(Empty(ttl, now), before, kinds) && Harmless(kinds) && Settled(s, user) ==>
            forall d :: StaysLive(s, acts, (user, d)) ==> online)
  {
    var s0 := Empty(ttl, now);
    WholeSecondsBound(ttl);
    RunKeepsHistory(s0, before);
    var s := Exec(s0, before);
    if !WasLive(s, acts, user) { StaysUnseen(s, acts, id, user); }
    if OnlyKinds(s0, before, kinds) && Harmless(kinds) && Settled(s, user) {
      RunTracks(s0, before, kinds);
      forall d | StaysLive(s, acts, (user, d)) ensures online {
        assert d in Devices(s.sets, user, s.now);
        StepKeepsHistory(s, acts[0]);
        StillSees(Apply(s, acts[0]), acts[1..], id, (user, d));
      }
    }
  }
}
