/** WebSocket clients and the hub under any interleaving of goroutines: each lock operation, channel operation and test
    is a step of its own. The hub goroutine broadcasts; each client has one write pump; any number of other goroutines
    queue replies and unregister. */
module Hub {
  import opened Domain

  /** A `message_created` frame of the broadcast with that number, or any other frame. */
  datatype Frame = Created(cast: nat) | Reply(n: nat)

  /** Goroutines. */
  datatype Tid = HubLoop | Pump(c: nat) | Handler(n: nat)

  datatype Once = NotStarted | Running(t: Tid) | Done

  datatype Client = Client(
    user: string,
    queue: seq<Frame>,        // what is buffered in the channel
    closed: bool,
    channelClosed: bool,
    once: Once,
    readers: set<Tid>,        // read holders of the client's lock
    writer: Option<Tid>,      // its write holder
    inHand: Option<Frame>,    // taken from the channel by the pump, not yet written
    written: seq<Frame>,      // history: what the pump has written
    due: seq<nat>)            // history: the broadcasts whose snapshot held this client

  datatype EnqueueStage = Want | Test | Sending | Unlock(ok: bool)

  datatype CloseStage = Begin | Lock | Flag | Channel | Release | Conn

  datatype Pc =
    | Resting
    | Casting                                            // the hub loop, between two clients
    | Enqueue(c: nat, frame: Frame, stage: EnqueueStage)
    | Unregister(c: nat)
    | Closing(c: nat, at: CloseStage, held: bool)        // `held`: from Unregister, under the hub's lock
    | Writing
    | Finished

  /** The broadcast the hub loop is in: its number, its sender, the clients of the last snapshot and the members still
      to come. */
  datatype Cast = Cast(number: nat, sender: string, clients: seq<nat>, members: seq<string>)

  datatype State = State(
    clients: map<nat, Client>,
    users: map<string, set<nat>>,
    hubLock: Option<Tid>,
    threads: map<Tid, Pc>,
    cast: Cast,
    panicked: bool)           // a send on a closed channel, or a second close of one

  const CAPACITY := 128

  function PcOf(s: State, t: Tid): Pc { if t in s.threads then s.threads[t] else Resting }

  datatype Action =
    | Register(c: nat, user: string)
    | Answer(n: nat, c: nat, frame: Frame)               // a handler queues a reply
    | Leave(n: nat, c: nat)                              // a handler unregisters its client
    | Broadcast(sender: string, members: seq<string>)
    | Snapshot(order: seq<nat>)
    | Receive(c: nat)
    | Write(c: nat, ok: bool)
    | PingFails(c: nat)
    | Step(t: Tid)

  /** Where a goroutine goes on after an operation on a client. */
  function Back(t: Tid): Pc {
    match t
    case HubLoop => Casting
    case Pump(_) => Finished
    case Handler(_) => Resting
  }

  /** The clients of a user in any order. */
  ghost predicate ListsClients(users: map<string, set<nat>>, user: string, order: seq<nat>) {
    Distinct(order) && forall c :: c in order <==> user in users && c in users[user]
  }

  ghost predicate Enabled(s: State, a: Action) {
    match a
    case Register(c, _) => c !in s.clients && s.hubLock.None?
    case Answer(n, c, frame) => c in s.clients && PcOf(s, Handler(n)).Resting? && frame.Reply?
    case Leave(n, c) => c in s.clients && PcOf(s, Handler(n)).Resting?
    case Broadcast(_, _) => PcOf(s, HubLoop).Resting?
    case Snapshot(order) =>
      && PcOf(s, HubLoop).Casting? && s.cast.clients == [] && s.cast.members != [] && s.cast.members[0] != s.cast.sender
      && s.hubLock.None? && ListsClients(s.users, s.cast.members[0], order)
    case Receive(c) => c in s.clients && PcOf(s, Pump(c)).Resting? && (s.clients[c].queue != [] || s.clients[c].channelClosed)
    case Write(c, _) => c in s.clients && PcOf(s, Pump(c)).Writing? && s.clients[c].inHand.Some?
    case PingFails(c) => c in s.clients && PcOf(s, Pump(c)).Resting?
    case Step(t) => CanStep(s, t, PcOf(s, t))
  }

  /** Locks and `sync.Once` make a goroutine wait. */
  predicate CanStep(s: State, t: Tid, pc: Pc) {
    match pc
    case Resting => false
    case Writing => false
    case Finished => false
    case Casting => t.HubLoop? && (s.cast.clients != [] || s.cast.members == [] || s.cast.members[0] == s.cast.sender)
    case Enqueue(c, _, stage) => c in s.clients && (stage.Want? ==> s.clients[c].writer.None?)
    case Unregister(c) => c in s.clients && s.hubLock.None?
    case Closing(c, at, _) =>
      && c in s.clients && (at.Begin? ==> !s.clients[c].once.Running?)
      && (at.Lock? ==> s.clients[c].writer.None? && s.clients[c].readers == {})
  }

  function Put(s: State, c: nat, cl: Client, t: Tid, pc: Pc): State {
    s.(clients := s.clients[c := cl], threads := s.threads[t := pc])
  }

  function Goes(s: State, t: Tid, pc: Pc): State { s.(threads := s.threads[t := pc]) }

  function EnqueueStep(s: State, t: Tid, c: nat, frame: Frame, stage: EnqueueStage): State
    requires c in s.clients
  {
    var cl := s.clients[c];
    match stage
    case Want => Put(s, c, cl.(readers := cl.readers + {t}), t, Enqueue(c, frame, Test))
    case Test => Goes(s, t, Enqueue(c, frame, if cl.closed then Unlock(false) else Sending))
    case Sending =>
      if cl.channelClosed then s.(panicked := true)
      else if |cl.queue| < CAPACITY then Put(s, c, cl.(queue := cl.queue + [frame]), t, Enqueue(c, frame, Unlock(true)))
      else Goes(s, t, Enqueue(c, frame, Unlock(false)))
    case Unlock(ok) =>
      Put(s, c, cl.(readers := cl.readers - {t}), t, if t.HubLoop? && !ok then Unregister(c) else Back(t))
  }

  /** Takes the hub's lock and, unless the user is gone, the client out of the hub. */
  function UnregisterStep(s: State, t: Tid, c: nat): State
    requires c in s.clients
  {
    var user := s.clients[c].user;
    if user !in s.users then Goes(s, t, Back(t))
    else
      var left := s.users[user] - {c};
      Goes(s, t, Closing(c, Begin, true)).(users := if left == {} then s.users - {user} else s.users[user := left], hubLock := Some(t))
  }

  function CloseStep(s: State, t: Tid, c: nat, at: CloseStage, held: bool): State
    requires c in s.clients
  {
    var cl := s.clients[c];
    match at
    case Begin =>
      if cl.once.NotStarted? then Put(s, c, cl.(once := Running(t)), t, Closing(c, Lock, held)) else Closed(s, t, held)
    case Lock => Put(s, c, cl.(writer := Some(t)), t, Closing(c, Flag, held))
    case Flag => Put(s, c, cl.(closed := true), t, Closing(c, Channel, held))
    case Channel =>
      if cl.channelClosed then s.(panicked := true)
      else Put(s, c, cl.(channelClosed := true), t, Closing(c, Release, held))
    case Release => Put(s, c, cl.(writer := None), t, Closing(c, Conn, held))
    case Conn => Closed(s.(clients := s.clients[c := cl.(once := Done)]), t, held)
  }

  /** The end of `close`, and of `Unregister` when that called it. */
  function Closed(s: State, t: Tid, held: bool): State {
    Goes(s, t, Back(t)).(hubLock := if held then None else s.hubLock)
  }

  function CastStep(s: State): State
    requires CanStep(s, HubLoop, Casting)
  {
    if s.cast.clients != [] then
      Goes(s, HubLoop, Enqueue(s.cast.clients[0], Created(s.cast.number), Want)).(cast := s.cast.(clients := s.cast.clients[1..]))
    else if s.cast.members != [] then s.(cast := s.cast.(members := s.cast.members[1..]))
    else Goes(s, HubLoop, Resting)
  }

  function PcStep(s: State, t: Tid): State
    requires CanStep(s, t, PcOf(s, t))
  {
    match PcOf(s, t)
    case Casting => CastStep(s)
    case Enqueue(c, frame, stage) => EnqueueStep(s, t, c, frame, stage)
    case Unregister(c) => UnregisterStep(s, t, c)
    case Closing(c, at, held) => CloseStep(s, t, c, at, held)
  }

  function NewClient(user: string): Client {
    Client(user, [], false, false, NotStarted, {}, None, None, [], [])
  }

  function Noted(s: State, order: seq<nat>): map<nat, Client> {
    map c | c in s.clients :: if c in order then s.clients[c].(due := s.clients[c].due + [s.cast.number]) else s.clients[c]
  }

  ghost function Apply(s: State, a: Action): State
    requires Enabled(s, a)
  {
    match a
    case Register(c, user) =>
      s.(clients := s.clients[c := NewClient(user)],
         users := s.users[user := (if user in s.users then s.users[user] else {}) + {c}])
    case Answer(n, c, frame) => Goes(s, Handler(n), Enqueue(c, frame, Want))
    case Leave(n, c) => Goes(s, Handler(n), Unregister(c))
    case Broadcast(sender, members) => Goes(s, HubLoop, Casting).(cast := Cast(s.cast.number + 1, sender, [], members))
    case Snapshot(order) =>
      s.(clients := Noted(s, order), cast := s.cast.(clients := order, members := s.cast.members[1..]))
    case Receive(c) =>
      var cl := s.clients[c];
      if cl.queue == [] then Goes(s, Pump(c), Finished)
      else Put(s, c, cl.(queue := cl.queue[1..], inHand := Some(cl.queue[0])), Pump(c), Writing)
    case Write(c, ok) =>
      var cl := s.clients[c];
      if ok then Put(s, c, cl.(written := cl.written + [cl.inHand.value], inHand := None), Pump(c), Resting)
      else Goes(s, Pump(c), Closing(c, Begin, false))
    case PingFails(c) => Goes(s, Pump(c), Closing(c, Begin, false))
    case Step(t) => PcStep(s, t)
  }

  const START := State(map[], map[], None, map[], Cast(0, "", [], []), false)

  // ----- Who holds what -----

  /** What a goroutine may rely on about a client while it is at `pc`. */
  ghost predicate ClientAt(t: Tid, pc: Pc, cl: Client) {
    match pc
    case Enqueue(_, _, stage) => stage.Want? || (t in cl.readers && (stage.Sending? ==> !cl.closed && !cl.channelClosed))
    case Closing(_, at, _) =>
      && (!at.Begin? ==> cl.once == Running(t))
      && (at.Flag? || at.Channel? || at.Release? ==> cl.writer == Some(t))
      && (at.Lock? || at.Conn? ==> cl.writer.None?)
      && (at.Lock? || at.Flag? ==> !cl.closed && !cl.channelClosed)
      && (at.Channel? ==> cl.closed && !cl.channelClosed)
      && (at.Release? || at.Conn? ==> cl.closed && cl.channelClosed)
    case _ => true
  }

  predicate OnClient(pc: Pc) { pc.Enqueue? || pc.Unregister? || pc.Closing? }

  ghost predicate ThreadOk(t: Tid, pc: Pc, clients: map<nat, Client>, hubLock: Option<Tid>) {
    && (OnClient(pc) ==> pc.c in clients && ClientAt(t, pc, clients[pc.c]))
    && (pc.Enqueue? && pc.frame.Created? ==> t.HubLoop?)
    && (pc.Casting? ==> t.HubLoop?)
    && (pc.Writing? || pc.Finished? ==> t.Pump?)
    && (pc.Closing? && pc.held <==> hubLock == Some(t))
  }

  ghost predicate ClientOk(cl: Client) {
    && (cl.writer.Some? ==> cl.readers == {} && cl.once == Running(cl.writer.value))
    && (cl.once.NotStarted? ==> !cl.closed && !cl.channelClosed)
    && (cl.once.Done? ==> cl.closed && cl.channelClosed)
    && (cl.channelClosed ==> cl.closed)
    && |cl.queue| <= CAPACITY
  }

  ghost predicate LocksOk(s: State) {
    && !s.panicked
    && (forall t :: ThreadOk(t, PcOf(s, t), s.clients, s.hubLock))
    && (forall c :: c in s.clients ==> ClientOk(s.clients[c]))
  }

  /** What a goroutine never does to a client. */
  ghost predicate Guarantee(t: Tid, cl: Client, cl': Client) {
    && cl'.user == cl.user
    && (forall x :: x != t ==> (x in cl.readers <==> x in cl'.readers))
    && (cl'.once == cl.once || (cl.once.NotStarted? && cl'.once == Running(t)) || cl.once == Running(t))
    && (cl'.writer == cl.writer || cl.once == Running(t))
    && (cl'.closed == cl.closed || (cl.once == Running(t) && cl.readers == {}))
    && (cl'.channelClosed == cl.channelClosed || (cl.once == Running(t) && cl.readers == {}))
  }

  lemma OthersRely(t: Tid, t': Tid, pc: Pc, cl: Client, cl': Client)
    requires t' != t && ClientAt(t', pc, cl) && Guarantee(t, cl, cl')
    ensures ClientAt(t', pc, cl')
  {
  }

  /** Goroutine `t` has moved, touching only client `c`. */
  ghost predicate Moves(s: State, s': State, t: Tid, c: nat) {
    && (forall x :: x != t ==> PcOf(s', x) == PcOf(s, x))
    && c in s.clients && c in s'.clients && s'.clients == s.clients[c := s'.clients[c]]
    && Guarantee(t, s.clients[c], s'.clients[c]) && ClientOk(s'.clients[c])
    && ThreadOk(t, PcOf(s', t), s'.clients, s'.hubLock)
    && (s'.hubLock == s.hubLock || (s.hubLock.None? && s'.hubLock == Some(t)) || (s.hubLock == Some(t) && s'.hubLock.None?))
    && !s'.panicked
  }

  lemma MovesKeepLocks(s: State, s': State, t: Tid, c: nat)
    requires LocksOk(s) && Moves(s, s', t, c)
    ensures LocksOk(s')
  {
    forall x ensures ThreadOk(x, PcOf(s', x), s'.clients, s'.hubLock) {
      if x != t {
        var pc := PcOf(s, x);
        assert ThreadOk(x, pc, s.clients, s.hubLock);
        if OnClient(pc) && pc.c == c { OthersRely(t, x, pc, s.clients[c], s'.clients[c]); }
      }
    }
  }

  lemma EnqueueMoves(s: State, t: Tid)
    requires LocksOk(s) && PcOf(s, t).Enqueue? && CanStep(s, t, PcOf(s, t))
    ensures Moves(s, PcStep(s, t), t, PcOf(s, t).c)
  {
    var pc := PcOf(s, t);
    assert ThreadOk(t, pc, s.clients, s.hubLock) && ClientOk(s.clients[pc.c]) && !s.panicked;
    hide LocksOk;
    EnqueueGuards(s, t, pc.c, pc.frame, pc.stage);
    hide EnqueueStep;
  }

  lemma EnqueueGuards(s: State, t: Tid, c: nat, frame: Frame, stage: EnqueueStage)
    requires c in s.clients && CanStep(s, t, Enqueue(c, frame, stage)) && !s.panicked && ClientOk(s.clients[c])
    requires PcOf(s, t) == Enqueue(c, frame, stage) && ThreadOk(t, PcOf(s, t), s.clients, s.hubLock)
    ensures Moves(s, EnqueueStep(s, t, c, frame, stage), t, c)
  {
  }

  lemma CloseMoves(s: State, t: Tid)
    requires LocksOk(s) && PcOf(s, t).Closing? && CanStep(s, t, PcOf(s, t))
    ensures Moves(s, PcStep(s, t), t, PcOf(s, t).c)
  {
    var pc := PcOf(s, t);
    assert ThreadOk(t, pc, s.clients, s.hubLock) && ClientOk(s.clients[pc.c]) && !s.panicked;
    hide LocksOk;
    CloseGuards(s, t, pc.c, pc.at, pc.held);
    hide CloseStep;
  }

  lemma CloseGuards(s: State, t: Tid, c: nat, at: CloseStage, held: bool)
    requires c in s.clients && CanStep(s, t, Closing(c, at, held)) && !s.panicked && ClientOk(s.clients[c])
    requires PcOf(s, t) == Closing(c, at, held) && ThreadOk(t, PcOf(s, t), s.clients, s.hubLock)
    ensures Moves(s, CloseStep(s, t, c, at, held), t, c)
  {
  }

  lemma UnregisterMoves(s: State, t: Tid)
    requires LocksOk(s) && PcOf(s, t).Unregister? && CanStep(s, t, PcOf(s, t))
    ensures Moves(s, PcStep(s, t), t, PcOf(s, t).c)
  {
    assert ThreadOk(t, PcOf(s, t), s.clients, s.hubLock);
  }

  /** The goroutine an action belongs to. */
  function Mover(a: Action): Tid {
    match a
    case Answer(n, _, _) => Handler(n)
    case Leave(n, _) => Handler(n)
    case Receive(c) => Pump(c)
    case Write(c, _) => Pump(c)
    case PingFails(c) => Pump(c)
    case Step(t) => t
    case _ => HubLoop
  }

  lemma OtherMoves(s: State, a: Action)
    requires LocksOk(s) && Enabled(s, a) && (a.Answer? || a.Leave? || a.Receive? || a.Write? || a.PingFails?)
    ensures Moves(s, Apply(s, a), Mover(a), a.c)
  {
    assert ThreadOk(Mover(a), PcOf(s, Mover(a)), s.clients, s.hubLock);
  }

  /** Steps that change no lock. */
  lemma QuietKeepsLocks(s: State, a: Action)
    requires LocksOk(s) && Enabled(s, a)
    requires a.Broadcast? || a.Snapshot? || a.Register?
    ensures LocksOk(Apply(s, a))
  {
    var s' := Apply(s, a);
    forall t ensures ThreadOk(t, PcOf(s', t), s'.clients, s'.hubLock) {
      assert ThreadOk(t, PcOf(s, t), s.clients, s.hubLock);
    }
  }

  lemma CastKeepsLocks(s: State)
    requires LocksOk(s) && PcOf(s, HubLoop).Casting? && CanStep(s, HubLoop, Casting)
    requires forall c :: c in s.cast.clients ==> c in s.clients
    ensures LocksOk(CastStep(s))
  {
    var s' := CastStep(s);
    forall t ensures ThreadOk(t, PcOf(s', t), s'.clients, s'.hubLock) {
      assert ThreadOk(t, PcOf(s, t), s.clients, s.hubLock);
    }
  }

  // ----- Who is in the hub -----

  predicate InHub(s: State, c: nat)
    requires c in s.clients
  {
    s.clients[c].user in s.users && c in s.users[s.clients[c].user]
  }

  /** Somebody has taken the client out of the hub and is about to close it, holding the hub's lock. */
  predicate Removing(s: State, c: nat) {
    s.hubLock.Some? && var pc := PcOf(s, s.hubLock.value); pc.Closing? && pc.held && pc.c == c
  }

  ghost predicate UsersOk(s: State) {
    forall u :: u in s.users ==> s.users[u] != {} && forall c :: c in s.users[u] ==> c in s.clients && s.clients[c].user == u
  }

  /** A client that is no longer in the hub is closed, or is being closed by whoever took it out. */
  ghost predicate GoneOk(s: State) {
    forall c :: c in s.clients ==> InHub(s, c) || s.clients[c].closed || Removing(s, c)
  }

  lemma UnregisterKeepsHub(s: State, t: Tid)
    requires LocksOk(s) && UsersOk(s) && GoneOk(s) && PcOf(s, t).Unregister? && CanStep(s, t, PcOf(s, t))
    ensures UsersOk(PcStep(s, t)) && GoneOk(PcStep(s, t))
  {
    hide LocksOk;
    var s', c := PcStep(s, t), PcOf(s, t).c;
    var user := s.clients[c].user;
    forall x | x in s'.clients ensures InHub(s', x) || s'.clients[x].closed || Removing(s', x) {
      assert InHub(s, x) || s.clients[x].closed;
      if x != c && InHub(s, x) && s.clients[x].user == user { assert x in s.users[user] - {c}; }
    }
  }

  /** What one step of closing does, seen from the hub. */
  lemma CloseEffects(s: State, t: Tid)
    requires PcOf(s, t).Closing? && CanStep(s, t, PcOf(s, t)) && ThreadOk(t, PcOf(s, t), s.clients, s.hubLock)
    requires ClientOk(s.clients[PcOf(s, t).c])
    ensures var (s', pc) := (PcStep(s, t), PcOf(s, t));
      && s'.users == s.users && pc.c in s'.clients && (s.clients[pc.c].closed ==> s'.clients[pc.c].closed)
      && ((s'.hubLock == s.hubLock && PcOf(s', t).Closing? && PcOf(s', t).c == pc.c && PcOf(s', t).held == pc.held)
          || (s'.clients[pc.c].closed && s'.hubLock == if pc.held then None else s.hubLock))
  {
  }

  lemma CloseKeepsHub(s: State, t: Tid)
    requires LocksOk(s) && UsersOk(s) && GoneOk(s) && PcOf(s, t).Closing? && CanStep(s, t, PcOf(s, t))
    ensures UsersOk(PcStep(s, t)) && GoneOk(PcStep(s, t))
  {
    assert ThreadOk(t, PcOf(s, t), s.clients, s.hubLock);
    CloseEffects(s, t);
    CloseMoves(s, t);
    assert PcOf(s, t).held <==> s.hubLock == Some(t);
    hide PcStep, LocksOk, CanStep, ThreadOk, ClientAt, ClientOk;
    var s' := PcStep(s, t);
    forall x | x in s'.clients ensures InHub(s', x) || s'.clients[x].closed || Removing(s', x) {
      assert InHub(s, x) || s.clients[x].closed || Removing(s, x);
    }
  }

  /** Steps that leave the hub's map and its lock alone. */
  lemma OthersKeepHub(s: State, s': State, t: Tid, c: nat)
    requires LocksOk(s) && UsersOk(s) && GoneOk(s) && Moves(s, s', t, c) && s'.users == s.users && s'.hubLock == s.hubLock
    requires s.clients[c].closed ==> s'.clients[c].closed
    requires !PcOf(s, t).Closing?
    ensures UsersOk(s') && GoneOk(s')
  {
    forall x | x in s'.clients ensures InHub(s', x) || s'.clients[x].closed || Removing(s', x) {
      assert InHub(s, x) || s.clients[x].closed || Removing(s, x);
      assert ThreadOk(t, PcOf(s, t), s.clients, s.hubLock);
    }
  }

  lemma QuietKeepsHub(s: State, a: Action)
    requires LocksOk(s) && UsersOk(s) && GoneOk(s) && Enabled(s, a) && (a.Broadcast? || a.Snapshot? || a.Register?)
    ensures UsersOk(Apply(s, a)) && GoneOk(Apply(s, a))
  {
    var s' := Apply(s, a);
    assert ThreadOk(HubLoop, PcOf(s, HubLoop), s.clients, s.hubLock);
    forall x | x in s'.clients ensures InHub(s', x) || s'.clients[x].closed || Removing(s', x) {
      assert x in s.clients ==> InHub(s, x) || s.clients[x].closed || Removing(s, x);
    }
  }

  // ----- What reaches a client -----

  /** The broadcasts among some frames, in order. */
  function Casts(frames: seq<Frame>): seq<nat> {
    if frames == [] then [] else
      var last := frames[|frames| - 1];
      Casts(frames[..|frames| - 1]) + if last.Created? then [last.cast] else []
  }

  /** The broadcasts among everything queued for a client so far, whether written, in the pump's hand or waiting. */
  function Line(cl: Client): seq<nat> { CastsIn(cl.written, cl.inHand, cl.queue) }

  function CastsIn(written: seq<Frame>, inHand: Option<Frame>, queue: seq<Frame>): seq<nat> {
    Casts(written + (if inHand.Some? then [inHand.value] else []) + queue)
  }

  lemma CastsSnoc(frames: seq<Frame>, f: Frame)
    ensures Casts(frames + [f]) == Casts(frames) + if f.Created? then [f.cast] else []
  {
    assert (frames + [f])[..|frames|] == frames;
  }

  /** The current broadcast still has to be queued for the client. */
  predicate Pending(pc: Pc, cast: Cast, c: nat) {
    c in cast.clients || (pc.Enqueue? && pc.c == c && !pc.stage.Unlock?)
  }

  /** The hub loop could not queue a frame for the client and is getting rid of it. */
  predicate Dropping(pc: Pc, c: nat) {
    (pc.Enqueue? && pc.c == c && pc.stage == Unlock(false)) || (pc.Unregister? && pc.c == c) || (pc.Closing? && pc.c == c)
  }

  /** What was queued is a beginning of what was due; for a client that is open it is all of it, up to the broadcast
      that is still under way. */
  ghost predicate DueAt(cl: Client, pending: bool, dropping: bool, number: nat) {
    && Line(cl) <= cl.due
    && (!cl.closed && !dropping ==> cl.due == Line(cl) + if pending then [number] else [])
  }

  ghost predicate DueOk(s: State) {
    forall c :: c in s.clients ==>
      DueAt(s.clients[c], Pending(PcOf(s, HubLoop), s.cast, c), Dropping(PcOf(s, HubLoop), c), s.cast.number)
  }

  /** The hub loop is where its broadcast is. */
  ghost predicate CastOk(s: State) {
    && Distinct(s.cast.clients) && (forall c :: c in s.cast.clients ==> c in s.clients)
    && var pc := PcOf(s, HubLoop);
       (pc.Enqueue? ==> pc.frame == Created(s.cast.number) && pc.c !in s.cast.clients)
       && (pc.Resting? ==> s.cast.clients == [])
  }

  ghost predicate PumpsOk(s: State) {
    forall c: nat ::
      && (PcOf(s, Pump(c)).Writing? ==> c in s.clients && s.clients[c].inHand.Some?)
      && (PcOf(s, Pump(c)).Resting? && c in s.clients ==> s.clients[c].inHand.None?)
  }

  /** A goroutine other than the hub loop queues nothing that was broadcast. */
  ghost predicate SameToHub(cl: Client, cl': Client) {
    cl'.due == cl.due && (cl.closed ==> cl'.closed) && Line(cl') == Line(cl)
  }

  lemma AwayKeepsDue(s: State, s': State, t: Tid, c: nat)
    requires DueOk(s) && CastOk(s) && t != HubLoop && Moves(s, s', t, c) && s'.cast == s.cast
    requires SameToHub(s.clients[c], s'.clients[c])
    ensures DueOk(s') && CastOk(s')
  {
    hide ThreadOk, ClientOk, Guarantee, Casts, Line, Pending, Dropping;
    assert PcOf(s', HubLoop) == PcOf(s, HubLoop);
    forall x | x in s'.clients
      ensures DueAt(s'.clients[x], Pending(PcOf(s', HubLoop), s'.cast, x), Dropping(PcOf(s', HubLoop), x), s'.cast.number) {
      assert DueAt(s.clients[x], Pending(PcOf(s, HubLoop), s.cast, x), Dropping(PcOf(s, HubLoop), x), s.cast.number);
    }
  }

  lemma QueuedLine(written: seq<Frame>, inHand: Option<Frame>, queue: seq<Frame>, frame: Frame)
    ensures CastsIn(written, inHand, queue + [frame])
         == CastsIn(written, inHand, queue) + if frame.Created? then [frame.cast] else []
  {
    var line := written + (if inHand.Some? then [inHand.value] else []) + queue;
    assert written + (if inHand.Some? then [inHand.value] else []) + (queue + [frame]) == line + [frame];
    CastsSnoc(line, frame);
  }

  lemma AwayEnqueueSame(s: State, t: Tid)
    requires LocksOk(s) && t != HubLoop && PcOf(s, t).Enqueue? && CanStep(s, t, PcOf(s, t))
    ensures var c := PcOf(s, t).c; c in PcStep(s, t).clients && SameToHub(s.clients[c], PcStep(s, t).clients[c])
    ensures PcStep(s, t).cast == s.cast
  {
    assert ThreadOk(t, PcOf(s, t), s.clients, s.hubLock);
    var cl := s.clients[PcOf(s, t).c];
    QueuedLine(cl.written, cl.inHand, cl.queue, PcOf(s, t).frame);
    hide LocksOk, CastsIn;
  }

  /** Closing touches nothing that is queued. */
  lemma CloseLeavesQueue(s: State, t: Tid, c: nat, at: CloseStage, held: bool)
    requires c in s.clients
    ensures var s' := CloseStep(s, t, c, at, held);
      && s'.cast == s.cast && c in s'.clients
      && var (cl, cl') := (s.clients[c], s'.clients[c]);
         cl'.written == cl.written && cl'.inHand == cl.inHand && cl'.queue == cl.queue && cl'.due == cl.due
         && (cl.closed ==> cl'.closed)
  {
  }

  lemma CloseSame(s: State, t: Tid)
    requires PcOf(s, t).Closing? && CanStep(s, t, PcOf(s, t))
    ensures var c := PcOf(s, t).c; c in PcStep(s, t).clients && SameToHub(s.clients[c], PcStep(s, t).clients[c])
    ensures PcStep(s, t).cast == s.cast
  {
    var pc := PcOf(s, t);
    CloseLeavesQueue(s, t, pc.c, pc.at, pc.held);
    hide CastsIn, CloseStep;
  }

  lemma Received(written: seq<Frame>, queue: seq<Frame>)
    requires queue != []
    ensures CastsIn(written, Some(queue[0]), queue[1..]) == CastsIn(written, None, queue)
  {
    assert written + [queue[0]] + queue[1..] == written + [] + queue;
  }

  lemma Written(written: seq<Frame>, frame: Frame, queue: seq<Frame>)
    ensures CastsIn(written + [frame], None, queue) == CastsIn(written, Some(frame), queue)
  {
    assert written + [frame] + [] + queue == written + [frame] + queue;
  }

  lemma PumpSame(s: State, a: Action)
    requires Enabled(s, a) && (a.Receive? || a.Write?) && PumpsOk(s)
    ensures a.c in Apply(s, a).clients && SameToHub(s.clients[a.c], Apply(s, a).clients[a.c])
  {
    var cl, cl' := s.clients[a.c], Apply(s, a).clients[a.c];
    if a.Receive? && cl.queue != [] { Received(cl.written, cl.queue); }
    if a.Write? && a.ok { Written(cl.written, cl.inHand.value, cl.queue); }
    hide CastsIn;
  }

  // ----- Steps of the hub loop -----

  /** What queueing does to the hub loop's own books. */
  lemma HubEnqueueEffect(s: State, cl: Client, c: nat, frame: Frame, stage: EnqueueStage)
    requires c in s.clients && cl == s.clients[c] && frame == Created(s.cast.number) && c !in s.cast.clients
    requires ClientAt(HubLoop, Enqueue(c, frame, stage), cl) && PcOf(s, HubLoop) == Enqueue(c, frame, stage)
    requires DueAt(cl, Pending(PcOf(s, HubLoop), s.cast, c), Dropping(PcOf(s, HubLoop), c), s.cast.number)
    ensures var s' := EnqueueStep(s, HubLoop, c, frame, stage);
      && c in s'.clients && s'.clients == s.clients[c := s'.clients[c]] && s'.cast == s.cast
      && var pc' := PcOf(s', HubLoop);
         && DueAt(s'.clients[c], Pending(pc', s.cast, c), Dropping(pc', c), s.cast.number)
         && (pc'.Enqueue? ==> pc'.c == c && pc'.frame == frame) && (pc'.Unregister? ==> pc'.c == c)
         && (pc'.Enqueue? || pc'.Unregister? || pc'.Casting?)
  {
    QueuedLine(cl.written, cl.inHand, cl.queue, frame);
    hide CastsIn;
  }

  lemma HubEnqueueKeepsDue(s: State)
    requires LocksOk(s) && DueOk(s) && CastOk(s) && PcOf(s, HubLoop).Enqueue? && CanStep(s, HubLoop, PcOf(s, HubLoop))
    ensures DueOk(PcStep(s, HubLoop)) && CastOk(PcStep(s, HubLoop))
  {
    var s', pc := PcStep(s, HubLoop), PcOf(s, HubLoop);
    assert ThreadOk(HubLoop, pc, s.clients, s.hubLock);
    assert DueAt(s.clients[pc.c], Pending(pc, s.cast, pc.c), Dropping(pc, pc.c), s.cast.number);
    HubEnqueueEffect(s, s.clients[pc.c], pc.c, pc.frame, pc.stage);
    hide LocksOk, CastsIn, EnqueueStep;
    forall x | x in s'.clients
      ensures DueAt(s'.clients[x], Pending(PcOf(s', HubLoop), s'.cast, x), Dropping(PcOf(s', HubLoop), x), s'.cast.number) {
      assert DueAt(s.clients[x], Pending(pc, s.cast, x), Dropping(pc, x), s.cast.number);
    }
  }

  lemma HubUnregisterKeepsDue(s: State)
    requires LocksOk(s) && GoneOk(s) && DueOk(s) && CastOk(s)
    requires PcOf(s, HubLoop).Unregister? && CanStep(s, HubLoop, PcOf(s, HubLoop))
    ensures DueOk(PcStep(s, HubLoop)) && CastOk(PcStep(s, HubLoop))
  {
    var s', pc := PcStep(s, HubLoop), PcOf(s, HubLoop);
    hide LocksOk, Line;
    forall x | x in s'.clients
      ensures DueAt(s'.clients[x], Pending(PcOf(s', HubLoop), s'.cast, x), Dropping(PcOf(s', HubLoop), x), s'.cast.number) {
      assert DueAt(s.clients[x], Pending(pc, s.cast, x), Dropping(pc, x), s.cast.number);
      assert InHub(s, x) || s.clients[x].closed;
    }
  }

  lemma HubCloseKeepsDue(s: State)
    requires LocksOk(s) && DueOk(s) && CastOk(s) && PcOf(s, HubLoop).Closing? && CanStep(s, HubLoop, PcOf(s, HubLoop))
    ensures DueOk(PcStep(s, HubLoop)) && CastOk(PcStep(s, HubLoop))
  {
    var s', pc := PcStep(s, HubLoop), PcOf(s, HubLoop);
    assert ThreadOk(HubLoop, pc, s.clients, s.hubLock);
    CloseSame(s, HubLoop);
    CloseMoves(s, HubLoop);
    HubCloses(s);
    hide LocksOk, Line, PcStep, CanStep, ThreadOk, ClientOk, Guarantee;
    forall x | x in s'.clients
      ensures DueAt(s'.clients[x], Pending(PcOf(s', HubLoop), s'.cast, x), Dropping(PcOf(s', HubLoop), x), s'.cast.number) {
      assert DueAt(s.clients[x], Pending(pc, s.cast, x), Dropping(pc, x), s.cast.number);
    }
  }

  /** The hub loop goes on only when the client is closed. */
  lemma HubCloses(s: State)
    requires LocksOk(s) && PcOf(s, HubLoop).Closing? && CanStep(s, HubLoop, PcOf(s, HubLoop))
    ensures var (s', pc) := (PcStep(s, HubLoop), PcOf(s, HubLoop));
      && pc.c in s'.clients
      && ((PcOf(s', HubLoop).Closing? && PcOf(s', HubLoop).c == pc.c)
          || (PcOf(s', HubLoop) == Casting && s'.clients[pc.c].closed))
  {
    assert ThreadOk(HubLoop, PcOf(s, HubLoop), s.clients, s.hubLock);
    assert ClientOk(s.clients[PcOf(s, HubLoop).c]);
    hide LocksOk;
  }

  lemma HubCastKeepsDue(s: State)
    requires DueOk(s) && CastOk(s) && PcOf(s, HubLoop).Casting? && CanStep(s, HubLoop, Casting)
    ensures DueOk(CastStep(s)) && CastOk(CastStep(s))
  {
    var s' := CastStep(s);
    hide Line;
    forall x | x in s'.clients
      ensures DueAt(s'.clients[x], Pending(PcOf(s', HubLoop), s'.cast, x), Dropping(PcOf(s', HubLoop), x), s'.cast.number) {
      assert DueAt(s.clients[x], Pending(Casting, s.cast, x), Dropping(Casting, x), s.cast.number);
    }
  }

  lemma SnapshotKeepsDue(s: State, order: seq<nat>)
    requires UsersOk(s) && DueOk(s) && CastOk(s) && Enabled(s, Snapshot(order))
    ensures DueOk(Apply(s, Snapshot(order))) && CastOk(Apply(s, Snapshot(order)))
  {
    var s' := Apply(s, Snapshot(order));
    hide CastsIn;
    forall x | x in s'.clients
      ensures DueAt(s'.clients[x], Pending(PcOf(s', HubLoop), s'.cast, x), Dropping(PcOf(s', HubLoop), x), s'.cast.number) {
      assert DueAt(s.clients[x], Pending(Casting, s.cast, x), Dropping(Casting, x), s.cast.number);
    }
  }

  lemma BroadcastKeepsDue(s: State, a: Action)
    requires LocksOk(s) && DueOk(s) && CastOk(s) && Enabled(s, a) && (a.Broadcast? || a.Register?)
    ensures DueOk(Apply(s, a)) && CastOk(Apply(s, a))
  {
    var s', pc := Apply(s, a), PcOf(s, HubLoop);
    assert ThreadOk(HubLoop, pc, s.clients, s.hubLock);
    hide LocksOk;
    forall x | x in s'.clients
      ensures DueAt(s'.clients[x], Pending(PcOf(s', HubLoop), s'.cast, x), Dropping(PcOf(s', HubLoop), x), s'.cast.number) {
      if x in s.clients { assert DueAt(s.clients[x], Pending(pc, s.cast, x), Dropping(pc, x), s.cast.number); }
    }
  }

  // ----- All of it -----

  ghost predicate Inv(s: State) {
    LocksOk(s) && UsersOk(s) && GoneOk(s) && DueOk(s) && CastOk(s) && PumpsOk(s)
  }

  lemma PumpsKept(s: State, s': State, t: Tid, c: nat)
    requires PumpsOk(s) && Moves(s, s', t, c) && s'.clients[c].inHand == s.clients[c].inHand
    requires t.Pump? ==> !PcOf(s', t).Resting? && !PcOf(s', t).Writing?
    ensures PumpsOk(s')
  {
    hide ThreadOk, ClientOk, Guarantee;
    forall x: nat
      ensures PcOf(s', Pump(x)).Writing? ==> x in s'.clients && s'.clients[x].inHand.Some?
      ensures PcOf(s', Pump(x)).Resting? && x in s'.clients ==> s'.clients[x].inHand.None? {
      assert Pump(x) != t ==> PcOf(s', Pump(x)) == PcOf(s, Pump(x));
    }
  }

  lemma EnqueueKeepsInv(s: State, t: Tid)
    requires Inv(s) && PcOf(s, t).Enqueue? && CanStep(s, t, PcOf(s, t))
    ensures Inv(PcStep(s, t))
  {
    var s', c := PcStep(s, t), PcOf(s, t).c;
    EnqueueMoves(s, t);
    EnqueueLeaves(s, t);
    if t == HubLoop { HubEnqueueKeepsDue(s); } else { AwayEnqueueSame(s, t); AwayKeepsDue(s, s', t, c); }
    MovesKeepLocks(s, s', t, c);
    OthersKeepHub(s, s', t, c);
    PumpsKept(s, s', t, c);
    hide *;
  }

  /** Queueing leaves the hub, the closed flag and the pump's hand alone. */
  lemma EnqueueLeaves(s: State, t: Tid)
    requires LocksOk(s) && PcOf(s, t).Enqueue? && CanStep(s, t, PcOf(s, t))
    ensures var (s', c) := (PcStep(s, t), PcOf(s, t).c);
      && s'.users == s.users && s'.hubLock == s.hubLock && c in s'.clients
      && s'.clients[c].closed == s.clients[c].closed && s'.clients[c].inHand == s.clients[c].inHand
      && (t.Pump? ==> !PcOf(s', t).Resting? && !PcOf(s', t).Writing?)
  {
    hide LocksOk;
  }

  lemma CloseKeepsInv(s: State, t: Tid)
    requires Inv(s) && PcOf(s, t).Closing? && CanStep(s, t, PcOf(s, t))
    ensures Inv(PcStep(s, t))
  {
    var s', c := PcStep(s, t), PcOf(s, t).c;
    CloseMoves(s, t);
    CloseSame(s, t);
    CloseLeavesHand(s, t);
    if t == HubLoop { HubCloseKeepsDue(s); } else { AwayKeepsDue(s, s', t, c); }
    MovesKeepLocks(s, s', t, c);
    CloseKeepsHub(s, t);
    PumpsKept(s, s', t, c);
    hide *;
  }

  lemma CloseLeavesHand(s: State, t: Tid)
    requires PcOf(s, t).Closing? && CanStep(s, t, PcOf(s, t))
    ensures var (s', c) := (PcStep(s, t), PcOf(s, t).c);
      && c in s'.clients && s'.clients[c].inHand == s.clients[c].inHand
      && (t.Pump? ==> !PcOf(s', t).Resting? && !PcOf(s', t).Writing?)
  {
    var pc := PcOf(s, t);
    CloseLeavesQueue(s, t, pc.c, pc.at, pc.held);
  }

  lemma UnregisterKeepsInv(s: State, t: Tid)
    requires Inv(s) && PcOf(s, t).Unregister? && CanStep(s, t, PcOf(s, t))
    ensures Inv(PcStep(s, t))
  {
    var s', c := PcStep(s, t), PcOf(s, t).c;
    UnregisterMoves(s, t);
    if t == HubLoop { HubUnregisterKeepsDue(s); } else { AwayKeepsDue(s, s', t, c); }
    MovesKeepLocks(s, s', t, c);
    UnregisterKeepsHub(s, t);
    PumpsKept(s, s', t, c);
    hide *;
  }

  lemma CastLeaves(s: State)
    requires UsersOk(s) && GoneOk(s) && PumpsOk(s) && PcOf(s, HubLoop).Casting? && CanStep(s, HubLoop, Casting)
    ensures UsersOk(CastStep(s)) && GoneOk(CastStep(s)) && PumpsOk(CastStep(s))
  {
  }

  lemma CastKeepsInv(s: State)
    requires Inv(s) && PcOf(s, HubLoop).Casting? && CanStep(s, HubLoop, Casting)
    ensures Inv(CastStep(s))
  {
    CastKeepsLocks(s);
    HubCastKeepsDue(s);
    CastLeaves(s);
    hide *;
  }

  lemma QuietKeepsInv(s: State, a: Action)
    requires Inv(s) && Enabled(s, a) && (a.Broadcast? || a.Snapshot? || a.Register?)
    ensures Inv(Apply(s, a))
  {
    QuietKeepsLocks(s, a);
    QuietKeepsHub(s, a);
    if a.Snapshot? { SnapshotKeepsDue(s, a.order); } else { BroadcastKeepsDue(s, a); }
    QuietKeepsPumps(s, a);
    hide *;
  }

  lemma QuietKeepsPumps(s: State, a: Action)
    requires PumpsOk(s) && Enabled(s, a) && (a.Broadcast? || a.Snapshot? || a.Register?)
    ensures PumpsOk(Apply(s, a))
  {
    var s' := Apply(s, a);
    forall x: nat
      ensures PcOf(s', Pump(x)).Writing? ==> x in s'.clients && s'.clients[x].inHand.Some?
      ensures PcOf(s', Pump(x)).Resting? && x in s'.clients ==> s'.clients[x].inHand.None? {
      assert PcOf(s', Pump(x)) == PcOf(s, Pump(x));
    }
  }

  lemma PumpKeepsPumps(s: State, a: Action)
    requires PumpsOk(s) && Enabled(s, a) && (a.Receive? || a.Write? || a.PingFails? || a.Answer? || a.Leave?)
    ensures PumpsOk(Apply(s, a))
  {
    var s' := Apply(s, a);
    forall x: nat
      ensures PcOf(s', Pump(x)).Writing? ==> x in s'.clients && s'.clients[x].inHand.Some?
      ensures PcOf(s', Pump(x)).Resting? && x in s'.clients ==> s'.clients[x].inHand.None? {
      assert Mover(a) != Pump(x) ==> PcOf(s', Pump(x)) == PcOf(s, Pump(x));
    }
  }

  lemma AwayLeaves(s: State, a: Action)
    requires PumpsOk(s) && Enabled(s, a) && (a.Receive? || a.Write? || a.PingFails? || a.Answer? || a.Leave?)
    ensures var s' := Apply(s, a);
      && s'.users == s.users && s'.hubLock == s.hubLock && s'.cast == s.cast && a.c in s.clients && a.c in s'.clients
      && s'.clients[a.c].closed == s.clients[a.c].closed && SameToHub(s.clients[a.c], s'.clients[a.c])
      && !PcOf(s, Mover(a)).Closing? && Mover(a) != HubLoop
  {
    if a.Receive? || a.Write? { PumpSame(s, a); }
    hide CastsIn, PumpsOk;
  }

  lemma AwayKeepsInv(s: State, a: Action)
    requires Inv(s) && Enabled(s, a) && (a.Receive? || a.Write? || a.PingFails? || a.Answer? || a.Leave?)
    ensures Inv(Apply(s, a))
  {
    var s', t := Apply(s, a), Mover(a);
    OtherMoves(s, a);
    AwayLeaves(s, a);
    hide LocksOk, UsersOk, GoneOk, DueOk, CastOk, PumpsOk, Moves, Enabled, Apply, SameToHub, Mover;
    AwayKeepsDue(s, s', t, a.c);
    MovesKeepLocks(s, s', t, a.c);
    OthersKeepHub(s, s', t, a.c);
    PumpKeepsPumps(s, a);
  }

  lemma StepKeepsInv(s: State, a: Action)
    requires Inv(s) && Enabled(s, a)
    ensures Inv(Apply(s, a))
  {
    hide Inv;
    if a.Step? {
      match PcOf(s, a.t)
      case Casting => CastKeepsInv(s);
      case Enqueue(_, _, _) => EnqueueKeepsInv(s, a.t);
      case Unregister(_) => UnregisterKeepsInv(s, a.t);
      case Closing(_, _, _) => CloseKeepsInv(s, a.t);
    } else if a.Broadcast? || a.Snapshot? || a.Register? {
      QuietKeepsInv(s, a);
    } else {
      AwayKeepsInv(s, a);
    }
  }

  ghost predicate Runs(s: State, acts: seq<Action>)
    decreases |acts|
  {
    acts == [] || (Enabled(s, acts[0]) && Runs(Apply(s, acts[0]), acts[1..]))
  }

  ghost function Exec(s: State, acts: seq<Action>): State
    requires Runs(s, acts)
    decreases |acts|
  {
    if acts == [] then s else Exec(Apply(s, acts[0]), acts[1..])
  }

  lemma {:induction false} RunKeepsInv(s: State, acts: seq<Action>)
    requires Inv(s) && Runs(s, acts)
    ensures Inv(Exec(s, acts))
    decreases |acts|
  {
    hide Inv;
    if acts != [] {
      StepKeepsInv(s, acts[0]);
      RunKeepsInv(Apply(s, acts[0]), acts[1..]);
    }
  }

  ghost predicate Reachable(s: State) {
    exists acts :: Runs(START, acts) && s == Exec(START, acts)
  }

  lemma ReachableInv(s: State)
    requires Reachable(s)
    ensures Inv(s)
  {
    assert Inv(START);
    hide Inv, Runs, Exec;
    var acts :| Runs(START, acts) && s == Exec(START, acts);
    RunKeepsInv(START, acts);
  }

  /** No frame is ever sent on a closed channel and no channel is closed twice; no channel overflows; and only one
      goroutine at a time is inside the critical section of `close`, with no reader beside it. */
  lemma NeverPanics(s: State)
    requires Reachable(s)
    ensures !s.panicked
    ensures forall c :: c in s.clients ==> |s.clients[c].queue| <= CAPACITY
    ensures forall c :: c in s.clients && s.clients[c].writer.Some? ==> s.clients[c].readers == {}
  {
    ReachableInv(s);
  }

  /** No user is kept without clients, every client in the hub stands under its own user, and, while nobody is inside
      the hub's lock, every client is in the hub or closed. */
  lemma HubHoldsTheOpen(s: State)
    requires Reachable(s)
    ensures forall u :: u in s.users ==> s.users[u] != {} && forall c :: c in s.users[u] ==> c in s.clients && s.clients[c].user == u
    ensures s.hubLock.None? ==> forall c :: c in s.clients && !s.clients[c].closed ==> InHub(s, c)
  {
    ReachableInv(s);
    hide LocksOk, DueOk, CastOk, PumpsOk;
  }

  /** Between broadcasts an open client has queued or written exactly the `message_created` frames of the broadcasts
      whose snapshot held it, in order; during one, all but possibly the current one; and any client, open or not, has
      only ever got a beginning of them. */
  lemma OpenClientsMissNothing(s: State, c: nat)
    requires Reachable(s) && c in s.clients
    ensures Line(s.clients[c]) <= s.clients[c].due
    ensures !s.clients[c].closed && PcOf(s, HubLoop).Resting? ==> Line(s.clients[c]) == s.clients[c].due
    ensures !s.clients[c].closed && !Dropping(PcOf(s, HubLoop), c) ==>
      s.clients[c].due == Line(s.clients[c]) || s.clients[c].due == Line(s.clients[c]) + [s.cast.number]
  {
    ReachableInv(s);
    hide LocksOk, UsersOk, GoneOk, PumpsOk, CastsIn;
    assert DueAt(s.clients[c], Pending(PcOf(s, HubLoop), s.cast, c), Dropping(PcOf(s, HubLoop), c), s.cast.number);
  }
}
