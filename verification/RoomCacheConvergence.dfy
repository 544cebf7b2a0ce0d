/** When the membership cache agrees with the primary: exactly which kinds of faults can make it miss a member for
    good, and that without them it never does. */
module RoomCacheConvergence {
  import opened Domain
  import opened RoomCache

  // ----- Kinds of faults -----

  /** What a call is for. */
  datatype Purpose = Reading | Creating | Adding

  /** What a call does next, and for the shared commands of warming, on whose behalf. */
  datatype Stage =
    | ReadsCache
    | ReadsPrimary
    | InsertsRoom
    | ChecksRoom
    | InsertsMember
    | ChecksCached
    | AddsCached
    | Rereads
    | WarmChecks(why: Purpose)
    | WarmFills(why: Purpose)
    | WarmStamps(why: Purpose)
    | WarmLoops(why: Purpose)
    | LoopChecks(why: Purpose)
    | LoopAdds(why: Purpose)
    | Over

  function Why(reply: Reply): Purpose {
    match reply
    case Created => Creating
    case Added => Adding
    case _ => Reading
  }

  function StageOf(op: Op): Stage {
    match op
    case GetCached(_) => ReadsCache
    case GetPrimary(_) => ReadsPrimary
    case CreatePrimary(_, _) => InsertsRoom
    case AddCheck(_, _) => ChecksRoom
    case AddInsert(_, _) => InsertsMember
    case AddExists(_, _) => ChecksCached
    case AddSadd(_, _) => AddsCached
    case AddReread(_, _) => Rereads
    case WarmExists(_, _, reply) => WarmChecks(Why(reply))
    case WarmSadd(_, _, reply) => WarmFills(Why(reply))
    case WarmMeta(_, _, reply) => WarmStamps(Why(reply))
    case WarmLoop(_, _, reply) => WarmLoops(Why(reply))
    case LoopExists(_, _, _, reply) => LoopChecks(Why(reply))
    case LoopSadd(_, _, _, reply) => LoopAdds(Why(reply))
    case Done(_) => Over
  }

  /** A command that fails in some way, a call that stops, or a cached room that is dropped while a call about it is
      at some stage. */
  datatype Kind = Fails(at: Stage, fault: Fault) | Crashes(at: Stage) | Evicted(at: Stage)

  /** The call is under way and about the room. */
  predicate About(op: Op, room: string) {
    !op.Done? && op.room == room
  }

  /** The kinds of faults a step shows. Dropping a room that is not cached is none. */
  function Shown(s: State, a: Action): set<Kind>
    requires Enabled(s, a)
  {
    match a
    case Call(p, fault) => if fault.Ok? then {} else {Fails(StageOf(s.ops[p]), fault)}
    case Crash(p) => {Crashes(StageOf(s.ops[p]))}
    case Evict(room) => if room in s.cache then set p | p in s.ops && About(s.ops[p], room) :: Evicted(StageOf(s.ops[p])) else {}
    case _ => {}
  }

  /** Once an AddMember has stored its member, and until the member is cached, it must not stop, be told of a failed
      read, or lose a write; it must not store the member and report a failure; and a cached room must not be dropped
      between a call's look at the cache and the write that relies on it. Everything else is harmless: any fault of a
      Get or a Create, a crash of one, a cache write that only seems to fail. */
  predicate Harmful(k: Kind) {
    match k
    case Fails(InsertsMember, fault) => fault.Unacked?
    case Fails(AddsCached, fault) => fault.Lost?
    case Fails(WarmFills(why), fault) => why.Adding? && fault.Lost?
    case Fails(LoopAdds(why), fault) => why.Adding? && fault.Lost?
    case Fails(at, fault) => !fault.Ok? && (at.ChecksCached? || at.Rereads? || at == WarmChecks(Adding) || at == LoopChecks(Adding))
    case Crashes(at) =>
      || at.ChecksCached? || at.AddsCached? || at.Rereads? || at == WarmChecks(Adding) || at == WarmFills(Adding)
      || at == WarmLoops(Adding) || at == LoopChecks(Adding) || at == LoopAdds(Adding)
    case Evicted(at) => at.AddsCached? || at.WarmChecks? || at.WarmFills? || at.LoopAdds?
  }

  /** The run shows faults of these kinds only. */
  ghost predicate OnlyKinds(s: State, acts: seq<Action>, kinds: set<Kind>)
    requires Runs(s, acts)
    decreases |acts|
  {
    acts == [] || (Shown(s, acts[0]) <= kinds && OnlyKinds(Apply(s, acts[0]), acts[1..], kinds))
  }

  ghost predicate Harmless(kinds: set<Kind>) {
    forall k :: k in kinds ==> !Harmful(k)
  }

  // ----- Harmless faults keep the cache converging -----

  /** An AddMember that will put `user` into the room's cached set. */
  predicate Covers(cache: map<string, set<string>>, op: Op, room: string, user: string) {
    match op
    case AddExists(r, u) => r == room && u == user
    case AddSadd(r, u) => r == room && u == user
    case AddReread(r, u) => r == room && u == user
    case WarmExists(r, view, reply) => r == room && user in view && reply.Added?
    case WarmSadd(r, view, reply) => r == room && user in view && reply.Added?
    case WarmLoop(r, left, reply) => r == room && user in left && reply.Added? && room in cache
    case LoopExists(r, u, left, reply) => r == room && (u == user || user in left) && reply.Added? && room in cache
    case LoopSadd(r, u, left, reply) => r == room && (u == user || user in left) && reply.Added? && room in cache
    case _ => false
  }

  /** `op` may still create the room's cached set, from a view it read some time ago that lacks `user`. */
  predicate HoldsViewWithout(op: Op, room: string, user: string) {
    (op.WarmExists? || op.WarmSadd?) && op.room == room && user !in op.view
  }

  /** A member of the primary is cached, or an AddMember will see to it, or the room is not cached and nobody is about
      to cache a view without the member. */
  ghost predicate Settled(s: State, room: string, user: string) {
    || user in Of(s.cache, room)
    || (exists p :: p in s.ops && Covers(s.cache, s.ops[p], room, user))
    || (room !in s.cache && forall p :: p in s.ops ==> !HoldsViewWithout(s.ops[p], room, user))
  }

  /** A call that found the room cached and is about to add to it still finds it. */
  predicate KeyPresent(cache: map<string, set<string>>, op: Op) {
    op.AddSadd? || op.LoopSadd? ==> op.room in cache
  }

  ghost predicate Converging(s: State) {
    && Sound(s)
    && (forall p :: p in s.ops ==> KeyPresent(s.cache, s.ops[p]))
    && (forall room, user :: user in Of(s.primary, room) ==> Settled(s, room, user))
  }

  lemma StepKeepsKeys(s: State, a: Action)
    requires Sound(s) && Enabled(s, a) && Harmless(Shown(s, a)) && forall p :: p in s.ops ==> KeyPresent(s.cache, s.ops[p])
    ensures var s' := Apply(s, a); forall p :: p in s'.ops ==> KeyPresent(s'.cache, s'.ops[p])
  {
    var s' := Apply(s, a);
    forall p | p in s'.ops ensures KeyPresent(s'.cache, s'.ops[p]) {
      if p in s.ops {
        assert KeyPresent(s.cache, s.ops[p]);
        if a.Evict? && a.room in s.cache && About(s.ops[p], a.room) {
          assert Evicted(StageOf(s.ops[p])) in Shown(s, a);
        }
      }
    }
  }

  /** A command leaves every cached room cached with at least its members. */
  lemma CallKeepsCached(s: State, p: nat, fault: Fault)
    requires Sound(s) && Enabled(s, Call(p, fault))
    ensures forall room :: room in s.cache ==>
      room in Apply(s, Call(p, fault)).cache && s.cache[room] <= Apply(s, Call(p, fault)).cache[room]
  {
  }

  lemma FailureShows(s: State, p: nat, fault: Fault)
    requires Enabled(s, Call(p, fault))
    ensures !fault.Ok? ==> Fails(StageOf(s.ops[p]), fault) in Shown(s, Call(p, fault))
  {
  }

  /** The member an AddMember stores is covered by that very call. */
  lemma NewMemberCovered(s: State, p: nat, fault: Fault, room: string, user: string)
    requires Sound(s) && Enabled(s, Call(p, fault)) && Harmless(Shown(s, Call(p, fault))) && s.ops[p].AddInsert?
    requires user !in Of(s.primary, room) && user in Of(Apply(s, Call(p, fault)).primary, room)
    ensures Settled(Apply(s, Call(p, fault)), room, user)
  {
    FailureShows(s, p, fault);
    assert Covers(s.cache, Apply(s, Call(p, fault)).ops[p], room, user);
  }

  /** Nobody has read a new room yet. */
  lemma NewRoomUnseen(s: State, p: nat, fault: Fault, room: string, user: string)
    requires Sound(s) && Enabled(s, Call(p, fault)) && s.ops[p].CreatePrimary?
    requires user !in Of(s.primary, room) && user in Of(Apply(s, Call(p, fault)).primary, room)
    ensures Settled(Apply(s, Call(p, fault)), room, user)
  {
    var s' := Apply(s, Call(p, fault));
    assert room !in s.primary;
    forall q | q in s'.ops ensures !HoldsViewWithout(s'.ops[q], room, user) {
      if q in s.ops { assert Carries(s.primary, s.ops[q]); }
    }
  }

  /** A call that covered a member still does, or the member is now cached. */
  lemma CoverPassedOn(s: State, p: nat, fault: Fault, room: string, user: string)
    requires Sound(s) && Enabled(s, Call(p, fault)) && Harmless(Shown(s, Call(p, fault))) && KeyPresent(s.cache, s.ops[p])
    requires Covers(s.cache, s.ops[p], room, user)
    ensures var s' := Apply(s, Call(p, fault)); user in Of(s'.cache, room) || Covers(s'.cache, s'.ops[p], room, user)
  {
    assert Carries(s.primary, s.ops[p]);
    FailureShows(s, p, fault);
  }

  /** Nobody starts to hold a view without a member the primary has. */
  lemma ViewsAreCurrent(s: State, p: nat, fault: Fault, room: string, user: string)
    requires Sound(s) && Enabled(s, Call(p, fault)) && user in Of(s.primary, room)
    requires !HoldsViewWithout(s.ops[p], room, user)
    ensures !HoldsViewWithout(Apply(s, Call(p, fault)).ops[p], room, user)
  {
    if s.ops[p].CreatePrimary? && s.ops[p].room == room { assert room in s.primary; }
  }

  lemma CallKeepsSettled(s: State, p: nat, fault: Fault, room: string, user: string)
    requires Converging(s) && Enabled(s, Call(p, fault)) && Harmless(Shown(s, Call(p, fault)))
    requires user in Of(s.primary, room)
    ensures Settled(Apply(s, Call(p, fault)), room, user)
  {
    var s' := Apply(s, Call(p, fault));
    CallKeepsCached(s, p, fault);
    assert Settled(s, room, user) && KeyPresent(s.cache, s.ops[p]);
    if user in Of(s.cache, room) {
    } else if exists q :: q in s.ops && Covers(s.cache, s.ops[q], room, user) {
      var q :| q in s.ops && Covers(s.cache, s.ops[q], room, user);
      if q == p { CoverPassedOn(s, p, fault, room, user); }
      assert user in Of(s'.cache, room) || Covers(s'.cache, s'.ops[q], room, user);
    } else {
      ViewsAreCurrent(s, p, fault, room, user);
      assert !HoldsViewWithout(s.ops[p], room, user);
    }
  }

  lemma EvictKeepsSettled(s: State, room: string, dropped: string, user: string)
    requires Converging(s) && Harmless(Shown(s, Evict(dropped))) && user in Of(s.primary, room)
    ensures Settled(Apply(s, Evict(dropped)), room, user)
  {
    var s' := Apply(s, Evict(dropped));
    assert Settled(s, room, user);
    if room == dropped && room in s.cache {
      forall p | p in s.ops ensures !HoldsViewWithout(s.ops[p], room, user) {
        assert About(s.ops[p], room) ==> Evicted(StageOf(s.ops[p])) in Shown(s, Evict(dropped));
      }
    } else if q: nat :| q in s.ops && Covers(s.cache, s.ops[q], room, user) {
      assert Covers(s'.cache, s'.ops[q], room, user);
    }
  }

  lemma CrashKeepsSettled(s: State, room: string, p: nat, user: string)
    requires Converging(s) && Enabled(s, Crash(p)) && Harmless(Shown(s, Crash(p))) && user in Of(s.primary, room)
    ensures Settled(Apply(s, Crash(p)), room, user)
  {
    assert Settled(s, room, user) && Crashes(StageOf(s.ops[p])) in Shown(s, Crash(p));
    if q: nat :| q in s.ops && Covers(s.cache, s.ops[q], room, user) {
      assert q != p && Covers(s.cache, Apply(s, Crash(p)).ops[q], room, user);
    }
  }

  lemma StartKeepsSettled(s: State, a: Action, room: string, user: string)
    requires Converging(s) && Enabled(s, a) && user in Of(s.primary, room)
    requires !a.Call? && !a.Crash? && !a.Evict?
    ensures Settled(Apply(s, a), room, user)
  {
    assert Settled(s, room, user);
    if q: nat :| q in s.ops && Covers(s.cache, s.ops[q], room, user) {
      assert Covers(s.cache, Apply(s, a).ops[q], room, user);
    }
  }

  /** Every step without a harmful fault keeps the cache converging. */
  lemma StepKeepsConverging(s: State, a: Action)
    requires Converging(s) && Enabled(s, a) && Harmless(Shown(s, a))
    ensures Converging(Apply(s, a))
  {
    var s' := Apply(s, a);
    StepKeepsSound(s, a);
    StepKeepsKeys(s, a);
    hide Harmless, Shown, KeyPresent, Sound;
    forall room, user | user in Of(s'.primary, room) ensures Settled(s', room, user) {
      match a
      case Call(p, fault) =>
        if user in Of(s.primary, room) {
          CallKeepsSettled(s, p, fault, room, user);
        } else if s.ops[p].AddInsert? {
          NewMemberCovered(s, p, fault, room, user);
        } else {
          NewRoomUnseen(s, p, fault, room, user);
        }
      case Crash(p) => CrashKeepsSettled(s, room, p, user);
      case Evict(dropped) => EvictKeepsSettled(s, room, dropped, user);
      case _ => StartKeepsSettled(s, a, room, user);
    }
  }

  lemma {:induction false} RunConverges(s: State, acts: seq<Action>, kinds: set<Kind>)
    requires Converging(s) && Runs(s, acts) && OnlyKinds(s, acts, kinds) && Harmless(kinds)
    ensures Converging(Exec(s, acts))
    decreases |acts|
  {
    hide Converging;
    if acts != [] {
      StepKeepsConverging(s, acts[0]);
      RunConverges(Apply(s, acts[0]), acts[1..], kinds);
    }
  }

  /** No call about the room is under way. */
  predicate Quiet(s: State, room: string) {
    forall p :: p in s.ops ==> s.ops[p].Done? || s.ops[p].room != room
  }

  /** The room is not cached, or cached with exactly the primary's members. */
  predicate Agrees(s: State, room: string) {
    room in s.cache ==> room in s.primary && s.cache[room] == s.primary[room]
  }

  /** From an empty system, in every interleaving without a harmful fault, whenever no call about a room is under
      way the room is absent from the cache or cached with exactly the primary's members. */
  lemma CacheAgrees(acts: seq<Action>, kinds: set<Kind>, room: string)
    requires Runs(EMPTY, acts) && OnlyKinds(EMPTY, acts, kinds) && Harmless(kinds) && Quiet(Exec(EMPTY, acts), room)
    ensures Agrees(Exec(EMPTY, acts), room)
  {
    assert Converging(EMPTY);
    RunConverges(EMPTY, acts, kinds);
    ConvergedAgrees(Exec(EMPTY, acts), room);
  }

  lemma ConvergedAgrees(s: State, room: string)
    requires Converging(s) && Quiet(s, room)
    ensures Agrees(s, room)
  {
    forall user | user in Of(s.primary, room) && room in s.cache ensures user in s.cache[room] {
      assert Settled(s, room, user);
    }
  }
}
