/** The cached room repository as one caller runs it, one whole operation at a time. Each operation is proved to be a
    run of one call of the interleaved protocol, from any state of it with these stores. */
module RoomCacheRepository {
  import opened Domain
  import opened RoomCache

  // ----- Following the protocol -----

  type Rooms = map<string, set<string>>

  /** From `s`, the steps `acts` of call `p` lead to these stores and this point of its code. */
  ghost predicate CallAt(s: State, acts: seq<Action>, p: nat, primary: Rooms, cache: Rooms, op: Op) {
    Runs(s, acts) && OnlyCall(acts, p) && Exec(s, acts) == State(primary, cache, s.ops[p := op])
  }

  /** No step of another call, no crash, nothing dropped. */
  predicate OnlyCall(acts: seq<Action>, p: nat) {
    forall a :: a in acts ==> !a.Crash? && !a.Evict? && a.p == p
  }

  lemma Starts(s: State, p: nat, a: Action, op: Op)
    requires Enabled(s, a) && !a.Crash? && !a.Evict? && a.p == p && Apply(s, a) == Go(s, p, op)
    ensures CallAt(s, [a], p, s.primary, s.cache, op)
  {
    assert Runs(s, []) && Exec(s, []) == s;
    OneMore(s, [], a);
    assert [] + [a] == [a];
    hide Enabled, Apply, Runs, Exec;
  }

  /** The next command of the call. */
  lemma Steps(s: State, acts: seq<Action>, p: nat, primary: Rooms, cache: Rooms, op: Op, fault: Fault)
    returns (more: seq<Action>)
    requires CallAt(s, acts, p, primary, cache, op) && acts != []
    requires !op.Done? && (op.WarmLoop? ==> op.left == {} && fault.Ok?)
    ensures var t := State(primary, cache, s.ops[p := op]);
      CallAt(s, more, p, if fault.Lost? then primary else NextPrimary(t, op), if fault.Lost? then cache else NextCache(t, op),
             NextOp(t, op, fault))
    ensures more == acts + [Call(p, fault)]
  {
    more := acts + [Call(p, fault)];
    OneMore(s, acts, Call(p, fault));
    hide Runs, Exec, NextPrimary, NextCache, NextOp;
    var t := State(primary, cache, s.ops[p := op]);
    assert t.ops[p := NextOp(t, op, fault)] == s.ops[p := NextOp(t, op, fault)];
  }

  lemma Picks(s: State, acts: seq<Action>, p: nat, primary: Rooms, cache: Rooms, op: Op, user: string)
    returns (more: seq<Action>)
    requires CallAt(s, acts, p, primary, cache, op) && acts != [] && op.WarmLoop? && user in op.left
    ensures CallAt(s, more, p, primary, cache, LoopExists(op.room, user, op.left - {user}, op.reply))
    ensures more == acts + [Pick(p, user)]
  {
    more := acts + [Pick(p, user)];
    OneMore(s, acts, Pick(p, user));
    hide Runs, Exec;
    var op' := LoopExists(op.room, user, op.left - {user}, op.reply);
    assert s.ops[p := op][p := op'] == s.ops[p := op'];
  }

  class Repository {
    var primary: map<string, set<string>>
    var cache: map<string, set<string>>

    constructor ()
      ensures primary == map[] && cache == map[]
    {
      primary, cache := map[], map[];
    }

    /** Rooms have members, and the cache holds members of the primary only. */
    ghost predicate Valid()
      reads this
    {
      && (forall room :: room in primary ==> primary[room] != {})
      && (forall room :: room in cache ==> cache[room] != {} && cache[room] <= Of(primary, room))
    }

    /** The room is not cached, or cached exactly. */
    ghost predicate Agrees(room: string)
      reads this
    {
      room in cache ==> cache[room] == Of(primary, room)
    }

    /** SADD with its outcome. */
    method CacheAdd(room: string, users: set<string>, up: bool) returns (fault: Fault)
      requires Valid() && {} < users <= Of(primary, room)
      modifies this`cache
      ensures Valid()
      ensures cache == if fault.Lost? then old(cache) else Sadd(old(cache), room, users)
      ensures up ==> fault.Ok?
    {
      fault := Outcome(up);
      if !fault.Lost? {
        cache := Sadd(cache, room, users);
      }
    }

    /** Adds a member to the cached room if there is one, ignoring failures. */
    method WarmOne(room: string, member: string, up: bool,
                   ghost left: set<string>, ghost reply: Reply, ghost s: State, ghost p: nat, ghost taken: seq<Action>)
      returns (ghost acts: seq<Action>)
      requires Valid() && member in Of(primary, room) && taken != []
      requires CallAt(s, taken, p, primary, cache, LoopExists(room, member, left, reply))
      modifies this`cache
      ensures Valid()
      ensures cache.Keys == old(cache).Keys
      ensures up && room in cache ==> member in cache[room]
      ensures forall r :: r != room ==> Of(cache, r) == Of(old(cache), r)
      ensures Of(old(cache), room) <= Of(cache, room) <= Of(old(cache), room) + {member}
      ensures CallAt(s, acts, p, primary, cache, WarmLoop(room, left, reply)) && taken <= acts
    {
      hide CallAt;
      var found := Outcome(up);
      acts := Steps(s, taken, p, primary, cache, LoopExists(room, member, left, reply), found);
      if found.Ok? && room in cache {
        ghost var before := cache;
        var added := CacheAdd(room, {member}, up);
        acts := Steps(s, acts, p, primary, before, LoopSadd(room, member, left, reply), added);
      }
    }

    /** Fills the cache from a view of the primary: create the set if there is none, then add each member, ignoring
        failures. With the cache up the room ends up with at least the view. */
    method WarmCache(room: string, view: set<string>, up: bool,
                     ghost reply: Reply, ghost s: State, ghost p: nat, ghost taken: seq<Action>)
      returns (ghost acts: seq<Action>)
      requires Valid() && {} < view <= Of(primary, room) && taken != []
      requires CallAt(s, taken, p, primary, cache, WarmExists(room, view, reply))
      modifies this`cache
      ensures Valid()
      ensures up ==> Of(cache, room) == Of(old(cache), room) + view
      ensures forall r :: r != room ==> Of(cache, r) == Of(old(cache), r)
      ensures Of(old(cache), room) <= Of(cache, room) <= Of(old(cache), room) + view
      ensures CallAt(s, acts, p, primary, cache, Done(reply)) && taken <= acts
    {
      hide CallAt, Valid;
      var begun;
      begun, acts := CreateCached(room, view, up, reply, s, p, taken);
      if !begun { return; }
      acts := WarmMembers(room, view, up, reply, s, p, acts);
    }

    /** The loop over the members. */
    method WarmMembers(room: string, view: set<string>, up: bool,
                       ghost reply: Reply, ghost s: State, ghost p: nat, ghost taken: seq<Action>)
      returns (ghost acts: seq<Action>)
      requires Valid() && view <= Of(primary, room) && taken != []
      requires CallAt(s, taken, p, primary, cache, WarmLoop(room, view, reply))
      modifies this`cache
      ensures Valid()
      ensures up && room in old(cache) ==> view <= Of(cache, room)
      ensures forall r :: r != room ==> Of(cache, r) == Of(old(cache), r)
      ensures Of(old(cache), room) <= Of(cache, room) <= Of(old(cache), room) + view
      ensures CallAt(s, acts, p, primary, cache, Done(reply)) && taken <= acts
    {
      hide CallAt, Valid;
      acts := taken;
      var left := view;
      while left != {}
        invariant left <= view && Valid()
        invariant cache.Keys == old(cache).Keys && (up && room in cache ==> view - left <= cache[room])
        invariant forall r :: r != room ==> Of(cache, r) == Of(old(cache), r)
        invariant Of(old(cache), room) <= Of(cache, room) <= Of(old(cache), room) + view
        invariant CallAt(s, acts, p, primary, cache, WarmLoop(room, left, reply)) && taken <= acts
        decreases left
      {
        var member :| member in left;
        acts := Picks(s, acts, p, primary, cache, WarmLoop(room, left, reply), member);
        left := left - {member};
        acts := WarmOne(room, member, up, left, reply, s, p, acts);
      }
      acts := Steps(s, acts, p, primary, cache, WarmLoop(room, {}, reply), Ok);
    }

    /** The cache side of creating the room: nothing if there is a set already. */
    method CreateCached(room: string, view: set<string>, up: bool,
                        ghost reply: Reply, ghost s: State, ghost p: nat, ghost taken: seq<Action>)
      returns (begun: bool, ghost acts: seq<Action>)
      requires Valid() && {} < view <= Of(primary, room) && taken != []
      requires CallAt(s, taken, p, primary, cache, WarmExists(room, view, reply))
      modifies this`cache
      ensures Valid()
      ensures up ==> begun && room in cache
      ensures forall r :: r != room ==> Of(cache, r) == Of(old(cache), r)
      ensures Of(old(cache), room) <= Of(cache, room) <= Of(old(cache), room) + view
      ensures CallAt(s, acts, p, primary, cache, if begun then WarmLoop(room, view, reply) else Done(reply))
      ensures taken <= acts
    {
      hide CallAt;
      var seen := Outcome(up);
      acts := Steps(s, taken, p, primary, cache, WarmExists(room, view, reply), seen);
      if !seen.Ok? { return false, acts; }
      if room !in cache {
        ghost var before := cache;
        var added := CacheAdd(room, view, up);
        acts := Steps(s, acts, p, primary, before, WarmSadd(room, view, reply), added);
        if !added.Ok? { return false, acts; }
        var meta := Outcome(up);
        acts := Steps(s, acts, p, primary, cache, WarmMeta(room, view, reply), meta);
        if !meta.Ok? { return false, acts; }
      }
      return true, acts;
    }

    /** Answers only members, for a room that agrees all of them, and with the cache up the room still agrees
        afterwards; a room it reports missing has no members unless the primary failed. */
    method Get(room: string, cacheUp: bool, primaryUp: bool, ghost s: State, ghost p: nat)
      returns (r: Option<set<string>>, ghost acts: seq<Action>)
      requires Valid() && s.primary == primary && s.cache == cache && p !in s.ops
      modifies this`cache
      ensures Valid()
      ensures CallAt(s, acts, p, primary, cache, Done(if r.Some? then Members(room, r.value) else Failed))
      ensures acts != [] && acts[0] == StartGet(p, room)
      ensures r.Some? ==> |acts| > 1 && (acts[1] == Call(p, Ok) || (|acts| > 2 && acts[2] == Call(p, Ok)))
      ensures r.Some? ==> {} < r.value <= Of(primary, room)
      ensures r.None? && primaryUp ==> Of(primary, room) == {}
      ensures old(Agrees(room)) && r.Some? ==> r.value == Of(primary, room)
      ensures old(Agrees(room)) && cacheUp ==> Agrees(room)
      ensures r.Some? && cacheUp ==> room in cache
      ensures Of(old(cache), room) <= Of(cache, room)
      ensures forall x :: x != room ==> Of(cache, x) == Of(old(cache), x)
    {
      acts := [StartGet(p, room)];
      Starts(s, p, acts[0], GetCached(room));
      hide CallAt;
      var seen := Outcome(cacheUp);
      acts := Steps(s, acts, p, primary, cache, GetCached(room), seen);
      if seen.Ok? && Of(cache, room) != {} {
        return Some(Of(cache, room)), acts;
      }
      var read := Outcome(primaryUp);
      var view := Of(primary, room);
      acts := Steps(s, acts, p, primary, cache, GetPrimary(room), read);
      if !read.Ok? || view == {} {
        return None, acts;
      }
      acts := WarmCache(room, view, cacheUp, Members(room, view), s, p, acts);
      return Some(view), acts;
    }

    /** Create makes the room with its members exactly when it did not exist, and caches it. */
    method Create(room: string, members: set<string>, cacheUp: bool, primaryUp: bool, ghost s: State, ghost p: nat)
      returns (ok: bool, ghost acts: seq<Action>)
      requires Valid() && members != {} && s.primary == primary && s.cache == cache && p !in s.ops
      modifies this
      ensures CallAt(s, acts, p, primary, cache, Done(if ok then Created else Failed))
      ensures |acts| >= 2 && acts[0] == StartCreate(p, room, members) && (ok <==> room !in old(primary) && acts[1] == Call(p, Ok))
      ensures Valid()
      ensures ok ==> room !in old(primary) && primary == old(primary)[room := members]
      ensures !ok && primaryUp ==> room in old(primary) && primary == old(primary)
      ensures primary == old(primary) || (room !in old(primary) && primary == old(primary)[room := members])
      ensures cacheUp && primaryUp && old(Agrees(room)) ==> Agrees(room)
      ensures cacheUp && ok ==> room in cache
      ensures Of(old(cache), room) <= Of(cache, room)
      ensures forall x :: x != room ==> Of(primary, x) == Of(old(primary), x) && Of(cache, x) == Of(old(cache), x)
    {
      acts := [StartCreate(p, room, members)];
      Starts(s, p, acts[0], CreatePrimary(room, members));
      hide CallAt;
      var fault := Outcome(primaryUp);
      var absent := room !in primary;
      acts := Steps(s, acts, p, primary, cache, CreatePrimary(room, members), fault);
      if !fault.Lost? && absent {
        assert room !in cache;
        primary := primary[room := members];
      }
      if !fault.Ok? || !absent {
        return false, acts;
      }
      acts := WarmCache(room, members, cacheUp, Created, s, p, acts);
      return true, acts;
    }

    /** AddMember adds to the primary and then to the cached set; if the room is not cached it is warmed from the
        primary, so with both up the room stays agreed. A failing cache never fails the call. */
    method AddMember(room: string, user: string, cacheUp: bool, primaryUp: bool, ghost s: State, ghost p: nat)
      returns (ok: bool, ghost acts: seq<Action>)
      requires Valid() && s.primary == primary && s.cache == cache && p !in s.ops
      modifies this
      ensures CallAt(s, acts, p, primary, cache, Done(if ok then Added else Failed))
      ensures |acts| >= 2 && acts[0] == StartAdd(p, room, user)
      ensures ok <==> room in old(primary) && acts[1] == Call(p, Ok) && |acts| > 2 && acts[2] == Call(p, Ok)
      ensures Valid()
      ensures ok ==> room in old(primary) && primary == Sadd(old(primary), room, {user})
      ensures !ok && primaryUp ==> room !in old(primary) && primary == old(primary)
      ensures primary == old(primary) || (room in old(primary) && primary == Sadd(old(primary), room, {user}))
      ensures cacheUp && primaryUp && old(Agrees(room)) ==> Agrees(room)
      ensures cacheUp && primaryUp && ok ==> room in cache
      ensures Of(old(cache), room) <= Of(cache, room)
      ensures forall x :: x != room ==> Of(primary, x) == Of(old(primary), x) && Of(cache, x) == Of(old(cache), x)
    {
      hide CallAt;
      ok, acts := StoreMember(room, user, primaryUp, s, p);
      if ok { acts := CacheMember(room, user, cacheUp, primaryUp, s, p, acts); }
    }

    /** The primary side: is there such a room, and then the insert. */
    method StoreMember(room: string, user: string, primaryUp: bool, ghost s: State, ghost p: nat)
      returns (ok: bool, ghost acts: seq<Action>)
      requires Valid() && s.primary == primary && s.cache == cache && p !in s.ops
      modifies this`primary
      ensures CallAt(s, acts, p, primary, cache, if ok then AddExists(room, user) else Done(Failed))
      ensures |acts| >= 2 && acts[0] == StartAdd(p, room, user)
      ensures ok <==> room in old(primary) && acts[1] == Call(p, Ok) && |acts| > 2 && acts[2] == Call(p, Ok)
      ensures Valid()
      ensures ok ==> room in old(primary) && primary == Sadd(old(primary), room, {user})
      ensures !ok && primaryUp ==> room !in old(primary) && primary == old(primary)
      ensures primary == old(primary) || (room in old(primary) && primary == Sadd(old(primary), room, {user}))
    {
      acts := [StartAdd(p, room, user)];
      Starts(s, p, acts[0], AddCheck(room, user));
      hide CallAt;
      var check := Outcome(primaryUp);
      acts := Steps(s, acts, p, primary, cache, AddCheck(room, user), check);
      if !check.Ok? || room !in primary {
        return false, acts;
      }
      var fault := Outcome(primaryUp);
      acts := Steps(s, acts, p, primary, cache, AddInsert(room, user), fault);
      if !fault.Lost? {
        primary := Sadd(primary, room, {user});
      }
      ok := fault.Ok?;
    }

    /** The cache side of adding a member the primary has. */
    method CacheMember(room: string, user: string, cacheUp: bool, primaryUp: bool,
                       ghost s: State, ghost p: nat, ghost taken: seq<Action>)
      returns (ghost acts: seq<Action>)
      requires Valid() && user in Of(primary, room) && taken != []
      requires CallAt(s, taken, p, primary, cache, AddExists(room, user))
      modifies this`cache
      ensures Valid()
      ensures CallAt(s, acts, p, primary, cache, Done(Added)) && taken <= acts
      ensures forall r :: r != room ==> Of(cache, r) == Of(old(cache), r)
      ensures Of(old(cache), room) <= Of(cache, room)
      ensures cacheUp && primaryUp ==> Of(cache, room) == if room in old(cache) then old(cache)[room] + {user} else primary[room]
    {
      hide CallAt;
      var seen := Outcome(cacheUp);
      acts := Steps(s, taken, p, primary, cache, AddExists(room, user), seen);
      if !seen.Ok? { return; }
      if room in cache {
        ghost var before := cache;
        var added := CacheAdd(room, {user}, cacheUp);
        acts := Steps(s, acts, p, primary, before, AddSadd(room, user), added);
      } else {
        var read := Outcome(primaryUp);
        acts := Steps(s, acts, p, primary, cache, AddReread(room, user), read);
        if !read.Ok? { return; }
        acts := WarmCache(room, primary[room], cacheUp, Added, s, p, acts);
      }
    }
  }
}
