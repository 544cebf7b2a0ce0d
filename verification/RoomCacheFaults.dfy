/** Every harmful kind of fault really is: for each a run from an empty system that shows no other kind and ends, with
    no call under way, with a room cached without one of its members. */
module RoomCacheFaults {
  import opened Domain
  import opened RoomCache
  import opened RoomCacheConvergence

  // ----- Runs -----

  /** Some run with faults of these kinds only leads from `s` to `t`. */
  ghost predicate Leads(kinds: set<Kind>, s: State, t: State) {
    exists acts :: Runs(s, acts) && OnlyKinds(s, acts, kinds) && Exec(s, acts) == t
  }

  lemma {:induction false} StillOnly(kinds: set<Kind>, s: State, acts: seq<Action>, a: Action)
    requires Runs(s, acts) && OnlyKinds(s, acts, kinds)
    requires Enabled(Exec(s, acts), a) && Shown(Exec(s, acts), a) <= kinds
    ensures Runs(s, acts + [a]) && OnlyKinds(s, acts + [a], kinds)
    decreases |acts|
  {
    OneMore(s, acts, a);
    hide Enabled, Shown, Apply;
    if acts == [] {
      assert (acts + [a])[1..] == [];
    } else {
      assert (acts + [a])[1..] == acts[1..] + [a];
      StillOnly(kinds, Apply(s, acts[0]), acts[1..], a);
    }
  }

  lemma Stays(kinds: set<Kind>, s: State)
    ensures Leads(kinds, s, s)
  {
    assert Runs(s, []) && OnlyKinds(s, [], kinds) && Exec(s, []) == s;
  }

  lemma Goes(kinds: set<Kind>, s: State, t: State, a: Action)
    requires Leads(kinds, s, t) && Enabled(t, a) && Shown(t, a) <= kinds
    ensures Leads(kinds, s, Apply(t, a))
  {
    hide Enabled, Shown, Apply, OnlyKinds, Runs, Exec;
    var acts :| Runs(s, acts) && OnlyKinds(s, acts, kinds) && Exec(s, acts) == t;
    OneMore(s, acts, a);
    StillOnly(kinds, s, acts, a);
    assert Runs(s, acts + [a]);
  }

  /** A call takes its next step without a fault. */
  lemma Proceeds(kinds: set<Kind>, s: State, t: State, p: nat)
    requires Leads(kinds, s, t) && Enabled(t, Call(p, Ok))
    ensures Leads(kinds, s, Apply(t, Call(p, Ok)))
  {
    hide Leads;
    Goes(kinds, s, t, Call(p, Ok));
  }

  // ----- Stretches of calls without faults -----

  /** A Create up to the point where it has stored the room and not looked at the cache. */
  lemma CreateStores(kinds: set<Kind>, s: State, t: State, p: nat, room: string, members: set<string>)
    requires Leads(kinds, s, t) && p !in t.ops && room !in t.primary && members != {}
    ensures Leads(kinds, s, t.(primary := t.primary[room := members], ops := t.ops[p := WarmExists(room, members, Created)]))
  {
    hide Leads;
    var t1 := Apply(t, StartCreate(p, room, members));
    Goes(kinds, s, t, StartCreate(p, room, members));
    Proceeds(kinds, s, t1, p);
    assert Apply(t1, Call(p, Ok)).ops == t.ops[p := WarmExists(room, members, Created)];
  }

  /** A Get of a room that is not cached, up to the point where it has read the primary. */
  lemma GetReads(kinds: set<Kind>, s: State, t: State, p: nat, room: string)
    requires Leads(kinds, s, t) && p !in t.ops && room !in t.cache && Of(t.primary, room) != {}
    ensures var view := Of(t.primary, room);
      Leads(kinds, s, t.(ops := t.ops[p := WarmExists(room, view, Members(room, view))]))
  {
    hide Leads;
    var view := Of(t.primary, room);
    var t1 := Apply(t, StartGet(p, room));
    Goes(kinds, s, t, StartGet(p, room));
    Proceeds(kinds, s, t1, p);
    var t2 := Apply(t1, Call(p, Ok));
    assert t2.ops[p] == GetPrimary(room);
    Proceeds(kinds, s, t2, p);
    assert Apply(t2, Call(p, Ok)).ops == t.ops[p := WarmExists(room, view, Members(room, view))];
  }

  /** An AddMember about to store its member. */
  lemma AddStarts(kinds: set<Kind>, s: State, t: State, p: nat, room: string, user: string)
    requires Leads(kinds, s, t) && p !in t.ops && room in t.primary
    ensures Leads(kinds, s, t.(ops := t.ops[p := AddInsert(room, user)]))
  {
    hide Leads;
    var t1 := Apply(t, StartAdd(p, room, user));
    Goes(kinds, s, t, StartAdd(p, room, user));
    Proceeds(kinds, s, t1, p);
    assert Apply(t1, Call(p, Ok)).ops == t.ops[p := AddInsert(room, user)];
  }

  /** An AddMember that has stored its member and not looked at the cache. */
  lemma AddStores(kinds: set<Kind>, s: State, t: State, p: nat, room: string, user: string)
    requires Leads(kinds, s, t) && p !in t.ops && room in t.primary
    ensures Leads(kinds, s, t.(primary := Sadd(t.primary, room, {user}), ops := t.ops[p := AddExists(room, user)]))
  {
    hide Leads;
    AddStarts(kinds, s, t, p, room, user);
    var t1 := t.(ops := t.ops[p := AddInsert(room, user)]);
    Proceeds(kinds, s, t1, p);
    assert Apply(t1, Call(p, Ok)).ops == t.ops[p := AddExists(room, user)];
  }

  /** The next step of a call, where it changes no store. */
  lemma Moves(kinds: set<Kind>, s: State, t: State, p: nat, op: Op)
    requires Leads(kinds, s, t) && Enabled(t, Call(p, Ok)) && NextOp(t, t.ops[p], Ok) == op
    requires NextCache(t, t.ops[p]) == t.cache && NextPrimary(t, t.ops[p]) == t.primary
    ensures Leads(kinds, s, t.(ops := t.ops[p := op]))
  {
    hide Leads;
    Proceeds(kinds, s, t, p);
  }

  /** An AddMember to a cached room, from its look at the cache on. */
  lemma AddCaches(kinds: set<Kind>, s: State, t: State, p: nat, room: string, user: string)
    requires Leads(kinds, s, t) && p in t.ops && t.ops[p] == AddExists(room, user) && room in t.cache
    ensures Leads(kinds, s, t.(cache := Sadd(t.cache, room, {user}), ops := t.ops[p := Done(Added)]))
  {
    hide Leads;
    Moves(kinds, s, t, p, AddSadd(room, user));
    var t1 := t.(ops := t.ops[p := AddSadd(room, user)]);
    Proceeds(kinds, s, t1, p);
    assert Apply(t1, Call(p, Ok)).ops == t.ops[p := Done(Added)];
  }

  /** One round of the warming loop. */
  lemma LoopRound(kinds: set<Kind>, s: State, t: State, p: nat, room: string, left: set<string>, reply: Reply, user: string)
    requires Leads(kinds, s, t) && p in t.ops && t.ops[p] == WarmLoop(room, left, reply) && user in left && room in t.cache
    ensures Leads(kinds, s, t.(cache := Sadd(t.cache, room, {user}), ops := t.ops[p := WarmLoop(room, left - {user}, reply)]))
  {
    LoopWrites(kinds, s, t, p, room, left, reply, user);
    hide Leads;
    var t2 := t.(ops := t.ops[p := LoopSadd(room, user, left - {user}, reply)]);
    Proceeds(kinds, s, t2, p);
    assert Apply(t2, Call(p, Ok)).ops == t.ops[p := WarmLoop(room, left - {user}, reply)];
  }

  lemma LoopLooks(kinds: set<Kind>, s: State, t: State, p: nat, room: string, left: set<string>, reply: Reply, user: string)
    requires Leads(kinds, s, t) && p in t.ops && t.ops[p] == WarmLoop(room, left, reply) && user in left
    ensures Leads(kinds, s, t.(ops := t.ops[p := LoopExists(room, user, left - {user}, reply)]))
  {
    hide Leads;
    Goes(kinds, s, t, Pick(p, user));
  }

  /** The round up to the point where it is about to write. */
  lemma LoopWrites(kinds: set<Kind>, s: State, t: State, p: nat, room: string, left: set<string>, reply: Reply, user: string)
    requires Leads(kinds, s, t) && p in t.ops && t.ops[p] == WarmLoop(room, left, reply) && user in left && room in t.cache
    ensures Leads(kinds, s, t.(ops := t.ops[p := LoopSadd(room, user, left - {user}, reply)]))
  {
    LoopLooks(kinds, s, t, p, room, left, reply, user);
    hide Leads;
    var t1 := t.(ops := t.ops[p := LoopExists(room, user, left - {user}, reply)]);
    Moves(kinds, s, t1, p, LoopSadd(room, user, left - {user}, reply));
    assert t1.ops[p := LoopSadd(room, user, left - {user}, reply)] == t.ops[p := LoopSadd(room, user, left - {user}, reply)];
  }

  /** The warming loop to its end. */
  lemma {:induction false} LoopEnds(kinds: set<Kind>, s: State, t: State, p: nat, room: string, left: set<string>, reply: Reply)
    requires Leads(kinds, s, t) && p in t.ops && t.ops[p] == WarmLoop(room, left, reply) && room in t.cache
    ensures Leads(kinds, s, t.(cache := Sadd(t.cache, room, left), ops := t.ops[p := Done(reply)]))
    decreases left
  {
    hide Leads;
    if left == {} {
      Moves(kinds, s, t, p, Done(reply));
      assert t.cache[room] + left == t.cache[room];
      assert Sadd(t.cache, room, left) == t.cache;
    } else {
      var user :| user in left;
      LoopRound(kinds, s, t, p, room, left, reply, user);
      var t1 := t.(cache := Sadd(t.cache, room, {user}), ops := t.ops[p := WarmLoop(room, left - {user}, reply)]);
      LoopEnds(kinds, s, t1, p, room, left - {user}, reply);
      assert Sadd(t1.cache, room, left - {user}) == Sadd(t.cache, room, left) by {
        assert {user} + (left - {user}) == left;
        assert Of(t1.cache, room) + (left - {user}) == Of(t.cache, room) + left;
      }
      assert t1.ops[p := Done(reply)] == t.ops[p := Done(reply)];
    }
  }

  /** The set is written and stamped; the loop begins. */
  lemma FillLoops(kinds: set<Kind>, s: State, t: State, p: nat, room: string, view: set<string>, reply: Reply)
    requires Leads(kinds, s, t) && p in t.ops && t.ops[p] == WarmSadd(room, view, reply)
    ensures Leads(kinds, s, t.(cache := Sadd(t.cache, room, view), ops := t.ops[p := WarmLoop(room, view, reply)]))
  {
    hide Leads;
    Proceeds(kinds, s, t, p);
    var t1 := Apply(t, Call(p, Ok));
    assert t1 == t.(cache := Sadd(t.cache, room, view), ops := t.ops[p := WarmMeta(room, view, reply)]);
    Moves(kinds, s, t1, p, WarmLoop(room, view, reply));
    assert t1.ops[p := WarmLoop(room, view, reply)] == t.ops[p := WarmLoop(room, view, reply)];
  }

  /** Warming from writing the set on: afterwards the room is cached with exactly the view, if it was not before. */
  lemma FillEnds(kinds: set<Kind>, s: State, t: State, p: nat, room: string, view: set<string>, reply: Reply)
    requires Leads(kinds, s, t) && p in t.ops && t.ops[p] == WarmSadd(room, view, reply) && room !in t.cache
    ensures Leads(kinds, s, t.(cache := t.cache[room := view], ops := t.ops[p := Done(reply)]))
  {
    FillLoops(kinds, s, t, p, room, view, reply);
    hide Leads;
    var t1 := t.(cache := Sadd(t.cache, room, view), ops := t.ops[p := WarmLoop(room, view, reply)]);
    LoopEnds(kinds, s, t1, p, room, view, reply);
    assert {} + view == view && view + view == view;
    assert Sadd(t1.cache, room, view) == t.cache[room := view];
    assert t1.ops[p := Done(reply)] == t.ops[p := Done(reply)];
  }

  lemma WarmEnds(kinds: set<Kind>, s: State, t: State, p: nat, room: string, view: set<string>, reply: Reply)
    requires Leads(kinds, s, t) && p in t.ops && t.ops[p] == WarmExists(room, view, reply) && room !in t.cache
    ensures Leads(kinds, s, t.(cache := t.cache[room := view], ops := t.ops[p := Done(reply)]))
  {
    hide Leads;
    Moves(kinds, s, t, p, WarmSadd(room, view, reply));
    var t1 := t.(ops := t.ops[p := WarmSadd(room, view, reply)]);
    FillEnds(kinds, s, t1, p, room, view, reply);
    assert t1.ops[p := Done(reply)] == t.ops[p := Done(reply)];
  }

  // ----- Bad ends -----

  /** With faults of these kinds only, some run from an empty system ends with no call about a room under way and the
      room cached without one of its members. */
  ghost predicate Diverges(kinds: set<Kind>) {
    exists t, room :: Leads(kinds, EMPTY, t) && Quiet(t, room) && !Agrees(t, room)
  }

  lemma Diverged(kinds: set<Kind>, t: State, room: string)
    requires Leads(kinds, EMPTY, t) && Quiet(t, room) && !Agrees(t, room)
    ensures Diverges(kinds)
  {
  }

  // ----- Faults of an AddMember to a cached room -----

  function One(room: string, members: set<string>): map<string, set<string>> { map[room := members] }

  lemma RoomStored(kinds: set<Kind>, room: string, a: string)
    ensures Leads(kinds, EMPTY, State(One(room, {a}), map[], map[0 := WarmExists(room, {a}, Created)]))
  {
    Stays(kinds, EMPTY);
    hide Leads;
    CreateStores(kinds, EMPTY, EMPTY, 0, room, {a});
  }

  lemma Cached(kinds: set<Kind>, room: string, a: string)
    ensures Leads(kinds, EMPTY, State(One(room, {a}), One(room, {a}), map[0 := Done(Created)]))
  {
    hide Leads;
    RoomStored(kinds, room, a);
    var t := State(One(room, {a}), map[], map[0 := WarmExists(room, {a}, Created)]);
    WarmEnds(kinds, EMPTY, t, 0, room, {a}, Created);
    assert t.ops[0 := Done(Created)] == map[0 := Done(Created)];
  }

  /** `b` is stored; its AddMember is at `op`; the cache has only `a`. */
  function AddedTo(room: string, a: string, b: string, op: Op): State {
    State(One(room, {a, b}), One(room, {a}), map[0 := Done(Created), 1 := op])
  }

  lemma AddLooks(kinds: set<Kind>, room: string, a: string, b: string)
    ensures Leads(kinds, EMPTY, AddedTo(room, a, b, AddExists(room, b)))
  {
    hide Leads;
    Cached(kinds, room, a);
    var t := State(One(room, {a}), One(room, {a}), map[0 := Done(Created)]);
    AddStores(kinds, EMPTY, t, 1, room, b);
    assert {a} + {b} == {a, b};
    assert Sadd(t.primary, room, {b}) == One(room, {a, b});
    assert t.ops[1 := AddExists(room, b)] == map[0 := Done(Created), 1 := AddExists(room, b)];
  }

  lemma AddWrites(kinds: set<Kind>, room: string, a: string, b: string)
    ensures Leads(kinds, EMPTY, AddedTo(room, a, b, AddSadd(room, b)))
  {
    hide Leads;
    AddLooks(kinds, room, a, b);
    var t := AddedTo(room, a, b, AddExists(room, b));
    Moves(kinds, EMPTY, t, 1, AddSadd(room, b));
    assert t.ops[1 := AddSadd(room, b)] == map[0 := Done(Created), 1 := AddSadd(room, b)];
  }

  /** The fault of a kind, hitting call 1. */
  function Hit(k: Kind): Action
    requires !k.Evicted?
  {
    match k
    case Fails(_, fault) => Call(1, fault)
    case Crashes(_) => Crash(1)
  }

  lemma InsertDiverges(kinds: set<Kind>, room: string, a: string, b: string)
    requires Fails(InsertsMember, Unacked) in kinds && a != b
    ensures Diverges(kinds)
  {
    hide Leads;
    Cached(kinds, room, a);
    var t := State(One(room, {a}), One(room, {a}), map[0 := Done(Created)]);
    AddStarts(kinds, EMPTY, t, 1, room, b);
    var t1 := t.(ops := t.ops[1 := AddInsert(room, b)]);
    Goes(kinds, EMPTY, t1, Call(1, Unacked));
    var t2 := Apply(t1, Call(1, Unacked));
    assert b in t2.primary[room] && b !in t2.cache[room];
    Diverged(kinds, t2, room);
  }

  lemma AddDiverges(kinds: set<Kind>, k: Kind, room: string, a: string, b: string)
    requires k in kinds && Harmful(k) && !k.Evicted? && (k.at.ChecksCached? || k.at.AddsCached?) && a != b
    ensures Diverges(kinds)
  {
    hide Leads;
    var op := if k.at.ChecksCached? then AddExists(room, b) else AddSadd(room, b);
    if k.at.ChecksCached? { AddLooks(kinds, room, a, b); } else { AddWrites(kinds, room, a, b); }
    var t := AddedTo(room, a, b, op);
    Goes(kinds, EMPTY, t, Hit(k));
    var t1 := Apply(t, Hit(k));
    assert b in t1.primary[room] && b !in t1.cache[room];
    Diverged(kinds, t1, room);
  }

  // ----- Faults of an AddMember to a room about to be cached from an old view -----

  /** Call 0 holds a view without `b`, whose AddMember is at `op`; the room is not cached. */
  function Racing(room: string, a: string, b: string, op: Op): State {
    State(One(room, {a, b}), map[], map[0 := WarmExists(room, {a}, Created), 1 := op])
  }

  lemma RaceRereads(kinds: set<Kind>, room: string, a: string, b: string)
    ensures Leads(kinds, EMPTY, Racing(room, a, b, AddReread(room, b)))
  {
    hide Leads;
    RoomStored(kinds, room, a);
    var t := State(One(room, {a}), map[], map[0 := WarmExists(room, {a}, Created)]);
    AddStores(kinds, EMPTY, t, 1, room, b);
    assert {a} + {b} == {a, b};
    assert Sadd(t.primary, room, {b}) == One(room, {a, b});
    assert t.ops[1 := AddExists(room, b)] == Racing(room, a, b, AddExists(room, b)).ops;
    Moves(kinds, EMPTY, Racing(room, a, b, AddExists(room, b)), 1, AddReread(room, b));
    assert Racing(room, a, b, AddExists(room, b)).ops[1 := AddReread(room, b)] == Racing(room, a, b, AddReread(room, b)).ops;
  }

  lemma RaceWarms(kinds: set<Kind>, room: string, a: string, b: string)
    ensures Leads(kinds, EMPTY, Racing(room, a, b, WarmExists(room, {a, b}, Added)))
  {
    hide Leads;
    RaceRereads(kinds, room, a, b);
    var op := WarmExists(room, {a, b}, Added);
    Moves(kinds, EMPTY, Racing(room, a, b, AddReread(room, b)), 1, op);
    assert Racing(room, a, b, AddReread(room, b)).ops[1 := op] == Racing(room, a, b, op).ops;
  }

  lemma RaceFills(kinds: set<Kind>, room: string, a: string, b: string)
    ensures Leads(kinds, EMPTY, Racing(room, a, b, WarmSadd(room, {a, b}, Added)))
  {
    hide Leads;
    RaceWarms(kinds, room, a, b);
    var op := WarmSadd(room, {a, b}, Added);
    Moves(kinds, EMPTY, Racing(room, a, b, WarmExists(room, {a, b}, Added)), 1, op);
    assert Racing(room, a, b, WarmExists(room, {a, b}, Added)).ops[1 := op] == Racing(room, a, b, op).ops;
  }

  lemma RaceDiverges(kinds: set<Kind>, k: Kind, room: string, a: string, b: string)
    requires k in kinds && Harmful(k) && !k.Evicted? && (k.at.Rereads? || k.at.WarmChecks? || k.at.WarmFills?) && a != b
    ensures Diverges(kinds)
  {
    hide Leads;
    var op := if k.at.Rereads? then AddReread(room, b)
              else if k.at.WarmChecks? then WarmExists(room, {a, b}, Added) else WarmSadd(room, {a, b}, Added);
    if k.at.Rereads? { RaceRereads(kinds, room, a, b); }
    else if k.at.WarmChecks? { RaceWarms(kinds, room, a, b); }
    else { RaceFills(kinds, room, a, b); }
    var t := Racing(room, a, b, op);
    Goes(kinds, EMPTY, t, Hit(k));
    var t1 := Apply(t, Hit(k));
    WarmEnds(kinds, EMPTY, t1, 0, room, {a}, Created);
    Diverged(kinds, t1.(cache := t1.cache[room := {a}], ops := t1.ops[0 := Done(Created)]), room);
  }

  /** The old view is cached; the AddMember goes round its members. */
  lemma RaceLoops(kinds: set<Kind>, room: string, a: string, b: string)
    ensures Leads(kinds, EMPTY, AddedTo(room, a, b, WarmLoop(room, {a, b}, Added)))
  {
    hide Leads;
    RaceWarms(kinds, room, a, b);
    var t := Racing(room, a, b, WarmExists(room, {a, b}, Added));
    WarmEnds(kinds, EMPTY, t, 0, room, {a}, Created);
    var t1 := AddedTo(room, a, b, WarmExists(room, {a, b}, Added));
    assert t.cache[room := {a}] == t1.cache && t.ops[0 := Done(Created)] == t1.ops;
    Moves(kinds, EMPTY, t1, 1, WarmLoop(room, {a, b}, Added));
    assert t1.ops[1 := WarmLoop(room, {a, b}, Added)] == AddedTo(room, a, b, WarmLoop(room, {a, b}, Added)).ops;
  }

  lemma RaceLoopReaches(kinds: set<Kind>, room: string, a: string, b: string, writes: bool)
    requires a != b
    ensures Leads(kinds, EMPTY, AddedTo(room, a, b, if writes then LoopSadd(room, b, {a}, Added) else LoopExists(room, b, {a}, Added)))
  {
    hide Leads;
    RaceLoops(kinds, room, a, b);
    var t := AddedTo(room, a, b, WarmLoop(room, {a, b}, Added));
    assert {a, b} - {b} == {a};
    if writes {
      LoopWrites(kinds, EMPTY, t, 1, room, {a, b}, Added, b);
      assert t.ops[1 := LoopSadd(room, b, {a}, Added)] == AddedTo(room, a, b, LoopSadd(room, b, {a}, Added)).ops;
    } else {
      LoopLooks(kinds, EMPTY, t, 1, room, {a, b}, Added, b);
      assert t.ops[1 := LoopExists(room, b, {a}, Added)] == AddedTo(room, a, b, LoopExists(room, b, {a}, Added)).ops;
    }
  }

  lemma LoopDiverges(kinds: set<Kind>, k: Kind, room: string, a: string, b: string)
    requires k in kinds && Harmful(k) && !k.Evicted? && (k.at.WarmLoops? || k.at.LoopChecks? || k.at.LoopAdds?) && a != b
    ensures Diverges(kinds)
  {
    hide Leads;
    var op := if k.at.WarmLoops? then WarmLoop(room, {a, b}, Added)
              else if k.at.LoopChecks? then LoopExists(room, b, {a}, Added) else LoopSadd(room, b, {a}, Added);
    if k.at.WarmLoops? { RaceLoops(kinds, room, a, b); } else { RaceLoopReaches(kinds, room, a, b, k.at.LoopAdds?); }
    var t := AddedTo(room, a, b, op);
    Goes(kinds, EMPTY, t, Hit(k));
    var t1 := Apply(t, Hit(k));
    if k.Crashes? {
      Diverged(kinds, t1, room);
    } else {
      LoopEnds(kinds, EMPTY, t1, 1, room, {a}, Added);
      assert {a} + {a} == {a};
      Diverged(kinds, t1.(cache := Sadd(t1.cache, room, {a}), ops := t1.ops[1 := Done(Added)]), room);
    }
  }

  /** In any state in which some call is about to cache a view, an AddMember that fails to read the room again leaves
      it cached without the new member, whoever holds the view. */
  lemma FailedRereadLosesMember(s: State, p: nat, q: nat, room: string, view: set<string>, reply: Reply, user: string,
                                fault: Fault)
    requires p !in s.ops && q in s.ops && s.ops[q] == WarmSadd(room, view, reply) && !fault.Ok?
    requires room in s.primary && room !in s.cache && user !in view
    ensures Leads({Fails(Rereads, fault)}, s, State(Sadd(s.primary, room, {user}), s.cache[room := view],
                                                    s.ops[p := Done(Added)][q := Done(reply)]))
  {
    var kinds := {Fails(Rereads, fault)};
    Stays(kinds, s);
    hide Leads;
    AddStores(kinds, s, s, p, room, user);
    var t := s.(primary := Sadd(s.primary, room, {user}), ops := s.ops[p := AddExists(room, user)]);
    Moves(kinds, s, t, p, AddReread(room, user));
    var t1 := t.(ops := t.ops[p := AddReread(room, user)]);
    Goes(kinds, s, t1, Call(p, fault));
    var t2 := Apply(t1, Call(p, fault));
    assert t2.ops == s.ops[p := Done(Added)];
    FillEnds(kinds, s, t2, q, room, view, reply);
  }

  // ----- Dropping a cached room under a call -----

  lemma Drops(kinds: set<Kind>, t: State, p: nat, room: string)
    requires Leads(kinds, EMPTY, t) && p in t.ops && room in t.cache && Evicted(StageOf(t.ops[p])) in kinds
    requires forall q :: q in t.ops && q != p ==> !About(t.ops[q], room)
    ensures Leads(kinds, EMPTY, t.(cache := t.cache - {room}))
  {
    hide Leads;
    Goes(kinds, EMPTY, t, Evict(room));
  }

  lemma DropUnderAdd(kinds: set<Kind>, room: string, a: string, b: string)
    requires Evicted(AddsCached) in kinds && a != b
    ensures Diverges(kinds)
  {
    hide Leads;
    AddWrites(kinds, room, a, b);
    var t := AddedTo(room, a, b, AddSadd(room, b));
    Drops(kinds, t, 1, room);
    var t1 := t.(cache := t.cache - {room});
    Proceeds(kinds, EMPTY, t1, 1);
    var t2 := Apply(t1, Call(1, Ok));
    assert a in t2.primary[room] && a !in t2.cache[room];
    Diverged(kinds, t2, room);
  }

  /** While call `p` still holds a view, `c` is added to the cached room, the room is dropped and the view cached. */
  lemma DropUnderView(kinds: set<Kind>, t: State, p: nat, q: nat, room: string, view: set<string>, reply: Reply, c: string)
    requires Leads(kinds, EMPTY, t) && p in t.ops && q !in t.ops && room in t.cache && room in t.primary && c !in view
    requires t.ops[p] == WarmExists(room, view, reply) || t.ops[p] == WarmSadd(room, view, reply)
    requires forall x :: x in t.ops && x != p ==> t.ops[x].Done?
    requires Evicted(StageOf(t.ops[p])) in kinds
    ensures Diverges(kinds)
  {
    hide Leads;
    AddStores(kinds, EMPTY, t, q, room, c);
    var t1 := t.(primary := Sadd(t.primary, room, {c}), ops := t.ops[q := AddExists(room, c)]);
    AddCaches(kinds, EMPTY, t1, q, room, c);
    var t2 := t1.(cache := Sadd(t1.cache, room, {c}), ops := t1.ops[q := Done(Added)]);
    Drops(kinds, t2, p, room);
    var t3 := t2.(cache := t2.cache - {room});
    if t.ops[p].WarmExists? { WarmEnds(kinds, EMPTY, t3, p, room, view, reply); } else { FillEnds(kinds, EMPTY, t3, p, room, view, reply); }
    var t4 := t3.(cache := t3.cache[room := view], ops := t3.ops[p := Done(reply)]);
    assert c in t4.primary[room] && c !in t4.cache[room];
    Diverged(kinds, t4, room);
  }

  /** A call holding a view may or may not have looked at the cache. */
  lemma MayLook(kinds: set<Kind>, t: State, p: nat, room: string, view: set<string>, reply: Reply, looked: bool)
    requires Leads(kinds, EMPTY, t) && p in t.ops && t.ops[p] == WarmExists(room, view, reply) && room !in t.cache
    ensures Leads(kinds, EMPTY, t.(ops := t.ops[p := if looked then WarmSadd(room, view, reply) else WarmExists(room, view, reply)]))
  {
    hide Leads;
    if looked { Moves(kinds, EMPTY, t, p, WarmSadd(room, view, reply)); }
    else { assert t.ops[p := WarmExists(room, view, reply)] == t.ops; }
  }

  /** Call 0 caches the room; call `p` holds a view. */
  lemma OtherCaches(kinds: set<Kind>, t: State, p: nat, room: string, view: set<string>, reply: Reply, looked: bool, a: string, c: string)
    requires Leads(kinds, EMPTY, t) && room !in t.cache && room in t.primary && c !in view
    requires t.ops.Keys == {0, p} && p != 0 && p != 3
    requires t.ops[0] == WarmExists(room, {a}, Created) && t.ops[p] == WarmExists(room, view, reply)
    requires Evicted(if looked then WarmFills(Why(reply)) else WarmChecks(Why(reply))) in kinds
    ensures Diverges(kinds)
  {
    hide Leads;
    var op := if looked then WarmSadd(room, view, reply) else WarmExists(room, view, reply);
    MayLook(kinds, t, p, room, view, reply, looked);
    var t1 := t.(ops := t.ops[p := op]);
    WarmEnds(kinds, EMPTY, t1, 0, room, {a}, Created);
    DropUnderView(kinds, t1.(cache := t1.cache[room := {a}], ops := t1.ops[0 := Done(Created)]), p, 3, room, view, reply, c);
  }

  lemma DropUnderCreate(kinds: set<Kind>, room: string, a: string, c: string, looked: bool)
    requires a != c && Evicted(if looked then WarmFills(Creating) else WarmChecks(Creating)) in kinds
    ensures Diverges(kinds)
  {
    hide Leads;
    RoomStored(kinds, room, a);
    var t := State(One(room, {a}), map[], map[0 := WarmExists(room, {a}, Created)]);
    MayLook(kinds, t, 0, room, {a}, Created, looked);
    var t1 := t.(ops := t.ops[0 := if looked then WarmSadd(room, {a}, Created) else WarmExists(room, {a}, Created)]);
    GetReads(kinds, EMPTY, t1, 2, room);
    var t2 := t1.(ops := t1.ops[2 := WarmExists(room, {a}, Members(room, {a}))]);
    WarmEnds(kinds, EMPTY, t2, 2, room, {a}, Members(room, {a}));
    var t3 := t2.(cache := t2.cache[room := {a}], ops := t2.ops[2 := Done(Members(room, {a}))]);
    DropUnderView(kinds, t3, 0, 3, room, {a}, Created, c);
  }

  lemma DropUnderWarm(kinds: set<Kind>, room: string, a: string, b: string, c: string, why: Purpose, looked: bool)
    requires a != b && b != c && a != c && Evicted(if looked then WarmFills(why) else WarmChecks(why)) in kinds
    ensures Diverges(kinds)
  {
    hide Leads;
    match why
    case Creating => DropUnderCreate(kinds, room, a, c, looked);
    case Reading =>
      RoomStored(kinds, room, a);
      var t := State(One(room, {a}), map[], map[0 := WarmExists(room, {a}, Created)]);
      GetReads(kinds, EMPTY, t, 2, room);
      var t1 := t.(ops := t.ops[2 := WarmExists(room, {a}, Members(room, {a}))]);
      OtherCaches(kinds, t1, 2, room, {a}, Members(room, {a}), looked, a, c);
    case Adding =>
      RaceWarms(kinds, room, a, b);
      OtherCaches(kinds, Racing(room, a, b, WarmExists(room, {a, b}, Added)), 1, room, {a, b}, Added, looked, a, c);
  }

  /** The room is dropped just before the last write of a warming loop, which then caches one member alone. */
  lemma DropUnderLoop(kinds: set<Kind>, t: State, p: nat, room: string, a: string, b: string, reply: Reply)
    requires Leads(kinds, EMPTY, t) && p in t.ops && t.ops[p] == WarmLoop(room, {a, b}, reply) && room in t.cache
    requires a != b && a in Of(t.primary, room) && Evicted(LoopAdds(Why(reply))) in kinds
    requires forall x :: x in t.ops && x != p ==> t.ops[x].Done?
    ensures Diverges(kinds)
  {
    hide Leads;
    LoopRound(kinds, EMPTY, t, p, room, {a, b}, reply, a);
    assert {a, b} - {a} == {b} && {b} - {b} == {};
    var t1 := t.(cache := Sadd(t.cache, room, {a}), ops := t.ops[p := WarmLoop(room, {b}, reply)]);
    LoopWrites(kinds, EMPTY, t1, p, room, {b}, reply, b);
    var t2 := t1.(ops := t1.ops[p := LoopSadd(room, b, {}, reply)]);
    Drops(kinds, t2, p, room);
    var t3 := t2.(cache := t2.cache - {room});
    Proceeds(kinds, EMPTY, t3, p);
    var t4 := Apply(t3, Call(p, Ok));
    assert t4.ops[p] == WarmLoop(room, {}, reply) && t4.cache[room] == {b};
    Moves(kinds, EMPTY, t4, p, Done(reply));
    var t5 := t4.(ops := t4.ops[p := Done(reply)]);
    assert a in t5.primary[room] && a !in t5.cache[room];
    Diverged(kinds, t5, room);
  }

  lemma DropUnderLoopFor(kinds: set<Kind>, room: string, a: string, b: string, why: Purpose)
    requires a != b && Evicted(LoopAdds(why)) in kinds
    ensures Diverges(kinds)
  {
    Stays(kinds, EMPTY);
    hide Leads;
    var both := {a, b};
    match why
    case Adding =>
      RaceLoops(kinds, room, a, b);
      DropUnderLoop(kinds, AddedTo(room, a, b, WarmLoop(room, {a, b}, Added)), 1, room, a, b, Added);
    case Creating =>
      CreateStores(kinds, EMPTY, EMPTY, 0, room, both);
      var t := State(One(room, both), map[], map[0 := WarmExists(room, both, Created)]);
      Moves(kinds, EMPTY, t, 0, WarmSadd(room, both, Created));
      var t1 := t.(ops := t.ops[0 := WarmSadd(room, both, Created)]);
      FillLoops(kinds, EMPTY, t1, 0, room, both, Created);
      var t2 := t1.(cache := Sadd(t1.cache, room, both), ops := t1.ops[0 := WarmLoop(room, both, Created)]);
      DropUnderLoop(kinds, t2, 0, room, a, b, Created);
    case Reading =>
      CreateStores(kinds, EMPTY, EMPTY, 0, room, both);
      var t := State(One(room, both), map[], map[0 := WarmExists(room, both, Created)]);
      GetReads(kinds, EMPTY, t, 2, room);
      var reply := Members(room, both);
      var t1 := t.(ops := t.ops[2 := WarmExists(room, both, reply)]);
      WarmEnds(kinds, EMPTY, t1, 0, room, both, Created);
      var t2 := t1.(cache := t1.cache[room := both], ops := t1.ops[0 := Done(Created)]);
      Moves(kinds, EMPTY, t2, 2, WarmLoop(room, both, reply));
      DropUnderLoop(kinds, t2.(ops := t2.ops[2 := WarmLoop(room, both, reply)]), 2, room, a, b, reply);
  }

  // ----- The exact condition -----

  lemma HarmfulDiverges(kinds: set<Kind>, k: Kind)
    requires k in kinds && Harmful(k)
    ensures Diverges(kinds)
  {
    var room, a, b, c := "r", "a", "b", "c";
    assert a[0] != b[0] && b[0] != c[0] && a[0] != c[0];
    hide Diverges;
    if k.Evicted? {
      match k.at
      case AddsCached => DropUnderAdd(kinds, room, a, b);
      case WarmChecks(why) => DropUnderWarm(kinds, room, a, b, c, why, false);
      case WarmFills(why) => DropUnderWarm(kinds, room, a, b, c, why, true);
      case LoopAdds(why) => DropUnderLoopFor(kinds, room, a, b, why);
    } else {
      match k.at
      case InsertsMember => InsertDiverges(kinds, room, a, b);
      case ChecksCached => AddDiverges(kinds, k, room, a, b);
      case AddsCached => AddDiverges(kinds, k, room, a, b);
      case Rereads => RaceDiverges(kinds, k, room, a, b);
      case WarmChecks(_) => RaceDiverges(kinds, k, room, a, b);
      case WarmFills(_) => RaceDiverges(kinds, k, room, a, b);
      case _ => LoopDiverges(kinds, k, room, a, b);
    }
  }

  lemma BadRun(kinds: set<Kind>) returns (acts: seq<Action>, room: string)
    requires !Harmless(kinds)
    ensures Runs(EMPTY, acts) && OnlyKinds(EMPTY, acts, kinds) && Quiet(Exec(EMPTY, acts), room) && !Agrees(Exec(EMPTY, acts), room)
  {
    var k :| k in kinds && Harmful(k);
    HarmfulDiverges(kinds, k);
    hide Harmful, Harmless, Runs, Exec, OnlyKinds, Quiet, Agrees;
    var t, r :| Leads(kinds, EMPTY, t) && Quiet(t, r) && !Agrees(t, r);
    room := r;
    acts :| Runs(EMPTY, acts) && OnlyKinds(EMPTY, acts, kinds) && Exec(EMPTY, acts) == t;
  }

  /** The cache agrees after every run with faults of some kinds only, whatever the interleaving, if and only if none
      of the kinds is harmful. */
  lemma CacheAgreesIff(kinds: set<Kind>)
    ensures Harmless(kinds) <==>
      forall acts, room :: Runs(EMPTY, acts) && OnlyKinds(EMPTY, acts, kinds) && Quiet(Exec(EMPTY, acts), room) ==>
        Agrees(Exec(EMPTY, acts), room)
  {
    hide Harmless, OnlyKinds, Quiet, Agrees, Runs, Exec;
    if Harmless(kinds) {
      forall acts, room | Runs(EMPTY, acts) && OnlyKinds(EMPTY, acts, kinds) && Quiet(Exec(EMPTY, acts), room)
        ensures Agrees(Exec(EMPTY, acts), room)
      {
        CacheAgrees(acts, kinds, room);
      }
    } else {
      var acts, room := BadRun(kinds);
    }
  }
}
