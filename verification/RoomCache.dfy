/** Room membership: Postgres is the truth, Valkey a cache in front of it. Any number of Get, ListMembers, Create
    and AddMember calls interleave, one database or cache command at a time. */
module RoomCache {
  import opened Domain

  datatype Reply = Members(room: string, view: set<string>) | Created | Added | Failed

  /** Where one call stands; the name says which command comes next. Get and ListMembers take the same path. */
  datatype Op =
    | GetCached(room: string)
    | GetPrimary(room: string)
    | CreatePrimary(room: string, members: set<string>)
    | AddCheck(room: string, user: string)
    | AddInsert(room: string, user: string)
    | AddExists(room: string, user: string)
    | AddSadd(room: string, user: string)
    | AddReread(room: string, user: string)
    | WarmExists(room: string, view: set<string>, reply: Reply)
    | WarmSadd(room: string, view: set<string>, reply: Reply)
    | WarmMeta(room: string, view: set<string>, reply: Reply)
    | WarmLoop(room: string, left: set<string>, reply: Reply)
    | LoopExists(room: string, user: string, left: set<string>, reply: Reply)
    | LoopSadd(room: string, user: string, left: set<string>, reply: Reply)
    | Done(reply: Reply)

  datatype State = State(
    primary: map<string, set<string>>,  // rooms and their members
    cache: map<string, set<string>>,    // member sets; a set that would be empty has no key
    ops: map<nat, Op>)

  function Of(m: map<string, set<string>>, room: string): set<string> {
    if room in m then m[room] else {}
  }

  /** SADD. */
  function Sadd(m: map<string, set<string>>, room: string, users: set<string>): map<string, set<string>> {
    m[room := Of(m, room) + users]
  }

  datatype Action =
    | StartGet(p: nat, room: string)
    | StartCreate(p: nat, room: string, members: set<string>)
    | StartAdd(p: nat, room: string, user: string)
    | Call(p: nat, fault: Fault)
    | Pick(p: nat, user: string)
    | Crash(p: nat)
    | Evict(room: string)

  predicate Enabled(s: State, a: Action) {
    match a
    case StartGet(p, _) => p !in s.ops
    case StartCreate(p, _, members) => p !in s.ops && members != {}
    case StartAdd(p, _, _) => p !in s.ops
    case Call(p, fault) => p in s.ops && !s.ops[p].Done? && (s.ops[p].WarmLoop? ==> s.ops[p].left == {} && fault.Ok?)
    case Pick(p, user) => p in s.ops && s.ops[p].WarmLoop? && user in s.ops[p].left
    case Crash(p) => p in s.ops
    case Evict(room) => true
  }

  function Go(s: State, p: nat, op: Op): State { s.(ops := s.ops[p := op]) }

  /** Where the call goes next. */
  function NextOp(s: State, op: Op, fault: Fault): Op
    requires !op.Done?
  {
    match op
    case GetCached(room) => if fault.Ok? && Of(s.cache, room) != {} then Done(Members(room, Of(s.cache, room))) else GetPrimary(room)
    case GetPrimary(room) =>
      var view := Of(s.primary, room);
      if fault.Ok? && view != {} then WarmExists(room, view, Members(room, view)) else Done(Failed)
    case CreatePrimary(room, members) =>
      if fault.Ok? && room !in s.primary then WarmExists(room, members, Created) else Done(Failed)
    case AddCheck(room, user) => if fault.Ok? && room in s.primary then AddInsert(room, user) else Done(Failed)
    case AddInsert(room, user) => if fault.Ok? then AddExists(room, user) else Done(Failed)
    case AddExists(room, user) =>
      if !fault.Ok? then Done(Added) else if room in s.cache then AddSadd(room, user) else AddReread(room, user)
    case AddSadd(_, _) => Done(Added)
    case AddReread(room, _) =>
      var view := Of(s.primary, room);
      if fault.Ok? && view != {} then WarmExists(room, view, Added) else Done(Added)
    case WarmExists(room, view, reply) =>
      if !fault.Ok? then Done(reply) else if room in s.cache then WarmLoop(room, view, reply) else WarmSadd(room, view, reply)
    case WarmSadd(room, view, reply) => if fault.Ok? then WarmMeta(room, view, reply) else Done(reply)
    case WarmMeta(room, view, reply) => if fault.Ok? then WarmLoop(room, view, reply) else Done(reply)
    case WarmLoop(_, _, reply) => Done(reply)
    case LoopExists(room, user, left, reply) =>
      if fault.Ok? && room in s.cache then LoopSadd(room, user, left, reply) else WarmLoop(room, left, reply)
    case LoopSadd(room, _, left, reply) => WarmLoop(room, left, reply)
  }

  /** What the command changes, unless it is lost. */
  function NextPrimary(s: State, op: Op): map<string, set<string>> {
    match op
    case CreatePrimary(room, members) => if room in s.primary then s.primary else s.primary[room := members]
    case AddInsert(room, user) => Sadd(s.primary, room, {user})
    case _ => s.primary
  }

  function NextCache(s: State, op: Op): map<string, set<string>> {
    match op
    case AddSadd(room, user) => Sadd(s.cache, room, {user})
    case WarmSadd(room, view, _) => Sadd(s.cache, room, view)
    case LoopSadd(room, user, _, _) => Sadd(s.cache, room, {user})
    case _ => s.cache
  }

  function Apply(s: State, a: Action): State
    requires Enabled(s, a)
  {
    match a
    case StartGet(p, room) => Go(s, p, GetCached(room))
    case StartCreate(p, room, members) => Go(s, p, CreatePrimary(room, members))
    case StartAdd(p, room, user) => Go(s, p, AddCheck(room, user))
    case Call(p, fault) =>
      var op := s.ops[p];
      State(if fault.Lost? then s.primary else NextPrimary(s, op),
            if fault.Lost? then s.cache else NextCache(s, op),
            s.ops[p := NextOp(s, op, fault)])
    case Pick(p, user) =>
      var op := s.ops[p];
      Go(s, p, LoopExists(op.room, user, op.left - {user}, op.reply))
    case Crash(p) => s.(ops := s.ops - {p})
    case Evict(room) => s.(cache := s.cache - {room})
  }

  predicate Runs(s: State, acts: seq<Action>)
    decreases |acts|
  {
    acts == [] || (Enabled(s, acts[0]) && Runs(Apply(s, acts[0]), acts[1..]))
  }

  function Exec(s: State, acts: seq<Action>): State
    requires Runs(s, acts)
    decreases |acts|
  {
    if acts == [] then s else Exec(Apply(s, acts[0]), acts[1..])
  }

  lemma {:induction false} OneMore(s: State, acts: seq<Action>, a: Action)
    requires Runs(s, acts) && Enabled(Exec(s, acts), a)
    ensures Runs(s, acts + [a]) && Exec(s, acts + [a]) == Apply(Exec(s, acts), a)
    decreases |acts|
  {
    hide Enabled, Apply;
    if acts == [] {
      assert (acts + [a])[1..] == [];
    } else {
      assert (acts + [a])[1..] == acts[1..] + [a];
      OneMore(Apply(s, acts[0]), acts[1..], a);
    }
  }

  const EMPTY := State(map[], map[], map[])

  // ----- Safety under any fault: the cache never invents a member -----

  /** The members an operation carries are members in the primary. */
  ghost predicate Carries(primary: map<string, set<string>>, op: Op) {
    match op
    case AddExists(room, user) => user in Of(primary, room)
    case AddSadd(room, user) => user in Of(primary, room)
    case AddReread(room, user) => user in Of(primary, room)
    case WarmExists(room, view, reply) => {} < view <= Of(primary, room) && Answers(primary, reply)
    case WarmSadd(room, view, reply) => {} < view <= Of(primary, room) && Answers(primary, reply)
    case WarmMeta(room, view, reply) => view <= Of(primary, room) && Answers(primary, reply)
    case WarmLoop(room, left, reply) => left <= Of(primary, room) && Answers(primary, reply)
    case LoopExists(room, user, left, reply) => left + {user} <= Of(primary, room) && Answers(primary, reply)
    case LoopSadd(room, user, left, reply) => left + {user} <= Of(primary, room) && Answers(primary, reply)
    case CreatePrimary(_, members) => members != {}
    case Done(reply) => Answers(primary, reply)
    case _ => true
  }

  ghost predicate Answers(primary: map<string, set<string>>, reply: Reply) {
    reply.Members? ==> reply.view <= Of(primary, reply.room)
  }

  ghost predicate Sound(s: State) {
    && (forall room :: room in s.primary ==> s.primary[room] != {})
    && (forall room :: room in s.cache ==> s.cache[room] != {} && s.cache[room] <= Of(s.primary, room))
    && (forall p :: p in s.ops ==> Carries(s.primary, s.ops[p]))
  }

  lemma PrimaryGrows(s: State, a: Action)
    requires Enabled(s, a)
    ensures forall room :: Of(s.primary, room) <= Of(Apply(s, a).primary, room)
  {
  }

  lemma CarriesKept(primary: map<string, set<string>>, primary': map<string, set<string>>, op: Op)
    requires Carries(primary, op) && forall room :: Of(primary, room) <= Of(primary', room)
    ensures Carries(primary', op)
  {
  }

  lemma CallCarries(s: State, p: nat, fault: Fault)
    requires Sound(s) && Enabled(s, Call(p, fault))
    ensures Carries(Apply(s, Call(p, fault)).primary, NextOp(s, s.ops[p], fault))
  {
    var op := s.ops[p];
    assert Carries(s.primary, op);
    PrimaryGrows(s, Call(p, fault));
    if fault.Ok? && op.GetCached? && op.room in s.cache {
      assert s.cache[op.room] <= Of(s.primary, op.room);
    }
  }

  lemma StepKeepsSound(s: State, a: Action)
    requires Sound(s) && Enabled(s, a)
    ensures Sound(Apply(s, a))
  {
    var s' := Apply(s, a);
    PrimaryGrows(s, a);
    forall p | p in s'.ops ensures Carries(s'.primary, s'.ops[p]) {
      if p in s.ops {
        assert Carries(s.primary, s.ops[p]);
        CarriesKept(s.primary, s'.primary, s.ops[p]);
      }
      if a.Call? && a.p == p {
        CallCarries(s, p, a.fault);
      }
    }
    if a.Call? {
      assert Carries(s.primary, s.ops[a.p]);
    }
  }

  /** Whatever fails, crashes or is evicted, every cached member and every member a Get answers with is a member
      of the room in the primary. */
  lemma {:induction false} CacheIsSubset(s: State, acts: seq<Action>)
    requires Sound(s) && Runs(s, acts)
    ensures Sound(Exec(s, acts))
    ensures forall room :: Of(Exec(s, acts).cache, room) <= Of(Exec(s, acts).primary, room)
    ensures forall p :: p in Exec(s, acts).ops && Exec(s, acts).ops[p].Done? && Exec(s, acts).ops[p].reply.Members? ==>
              Exec(s, acts).ops[p].reply.view <= Of(Exec(s, acts).primary, Exec(s, acts).ops[p].reply.room)
    decreases |acts|
  {
    if acts == [] {
      forall p | p in s.ops ensures Carries(s.primary, s.ops[p]) {}
    } else {
      StepKeepsSound(s, acts[0]);
      CacheIsSubset(Apply(s, acts[0]), acts[1..]);
    }
  }
}
