/** Who is dropped: a client is closed only for a cause, its channel being full when a broadcast comes, a write or ping that
    fails, or its own connection leaving. */
module HubHealth {
  import opened Domain
  import opened Hub
  import opened HubProgress

  /** Something that lets a client be closed: the hub loop finds its channel full, a write or ping fails, or its handler
      leaves. */
  ghost predicate Cause(s: State, a: Action, c: nat) {
    match a
    case Leave(_, x) => x == c
    case Write(x, ok) => x == c && !ok
    case PingFails(x) => x == c
    case Step(t) =>
      t.HubLoop? && c in s.clients && |s.clients[c].queue| >= CAPACITY
      && var pc := PcOf(s, t); pc.Enqueue? && pc.c == c && pc.stage.Sending?
    case _ => false
  }

  ghost predicate NoCause(s: State, acts: seq<Action>, c: nat)
    requires Runs(s, acts)
    decreases |acts|
  {
    acts == [] || (!Cause(s, acts[0], c) && NoCause(Apply(s, acts[0]), acts[1..], c))
  }

  /** The goroutine is about to take the client out or close it, or has failed to queue a broadcast for it. */
  predicate Against(t: Tid, pc: Pc, c: nat) {
    ((pc.Unregister? || pc.Closing?) && pc.c == c) || (t.HubLoop? && pc.Enqueue? && pc.c == c && pc.stage == Unlock(false))
  }

  ghost predicate Healthy(s: State, c: nat) {
    c in s.clients && !s.clients[c].closed && forall t :: !Against(t, PcOf(s, t), c)
  }

  lemma EnqueueKeepsHealthy(s: State, t: Tid, c: nat)
    requires LocksOk(s) && Healthy(s, c) && PcOf(s, t).Enqueue? && CanStep(s, t, PcOf(s, t)) && !Cause(s, Step(t), c)
    ensures Healthy(PcStep(s, t), c)
  {
    var s', pc := PcStep(s, t), PcOf(s, t);
    EnqueueMoves(s, t);
    assert ThreadOk(t, pc, s.clients, s.hubLock);
    hide LocksOk;
    assert s'.clients[c].closed == s.clients[c].closed;
    forall x ensures !Against(x, PcOf(s', x), c) { assert !Against(x, PcOf(s, x), c); }
  }

  lemma CloseKeepsHealthy(s: State, t: Tid, c: nat)
    requires LocksOk(s) && Healthy(s, c) && PcOf(s, t).Closing? && CanStep(s, t, PcOf(s, t))
    ensures Healthy(PcStep(s, t), c)
  {
    var s', pc := PcStep(s, t), PcOf(s, t);
    CloseMoves(s, t);
    assert !Against(t, pc, c) && pc.c != c;
    CloseGoesBack(s, t);
    hide LocksOk, PcStep, ThreadOk, ClientOk, Guarantee;
    forall x ensures !Against(x, PcOf(s', x), c) { assert !Against(x, PcOf(s, x), c); }
  }

  lemma CloseGoesBack(s: State, t: Tid)
    requires PcOf(s, t).Closing? && CanStep(s, t, PcOf(s, t))
    ensures var (pc, pc') := (PcOf(s, t), PcOf(PcStep(s, t), t)); pc' == Back(t) || (pc'.Closing? && pc'.c == pc.c)
  {
  }

  lemma UnregisterKeepsHealthy(s: State, t: Tid, c: nat)
    requires LocksOk(s) && Healthy(s, c) && PcOf(s, t).Unregister? && CanStep(s, t, PcOf(s, t))
    ensures Healthy(PcStep(s, t), c)
  {
    var s' := PcStep(s, t);
    assert !Against(t, PcOf(s, t), c);
    hide LocksOk;
    forall x ensures !Against(x, PcOf(s', x), c) { assert !Against(x, PcOf(s, x), c); }
  }

  lemma OthersKeepHealthy(s: State, a: Action, c: nat)
    requires LocksOk(s) && Healthy(s, c) && Enabled(s, a) && !Cause(s, a, c) && (a.Step? ==> PcOf(s, a.t).Casting?)
    ensures Healthy(Apply(s, a), c)
  {
    var s' := Apply(s, a);
    hide LocksOk;
    forall x ensures !Against(x, PcOf(s', x), c) { assert !Against(x, PcOf(s, x), c); }
  }

  lemma StepKeepsHealthy(s: State, a: Action, c: nat)
    requires LocksOk(s) && Healthy(s, c) && Enabled(s, a) && !Cause(s, a, c)
    ensures Healthy(Apply(s, a), c)
  {
    if a.Step? && PcOf(s, a.t).Enqueue? { EnqueueKeepsHealthy(s, a.t, c); }
    else if a.Step? && PcOf(s, a.t).Closing? { CloseKeepsHealthy(s, a.t, c); }
    else if a.Step? && PcOf(s, a.t).Unregister? { UnregisterKeepsHealthy(s, a.t, c); }
    else { OthersKeepHealthy(s, a, c); }
    hide LocksOk, Healthy, Cause;
  }

  /** A client that nobody has anything against stays open, and in the hub, as long as no cause comes up: no broadcast finds
      its channel full, no write or ping of it fails, and its handler does not leave. */
  lemma HealthyClientsStay(s: State, acts: seq<Action>, c: nat)
    requires Reachable(s) && Healthy(s, c) && Runs(s, acts) && NoCause(s, acts, c)
    ensures var t := Exec(s, acts); Healthy(t, c) && (t.hubLock.None? ==> InHub(t, c))
  {
    ReachableInv(s);
    StaysHealthy(s, acts, c);
    ReachesOn(s, acts);
    HubHoldsTheOpen(Exec(s, acts));
  }

  lemma {:induction false} StaysHealthy(s: State, acts: seq<Action>, c: nat)
    requires Inv(s) && Healthy(s, c) && Runs(s, acts) && NoCause(s, acts, c)
    ensures Healthy(Exec(s, acts), c)
    decreases |acts|
  {
    if acts != [] {
      StepKeepsInv(s, acts[0]);
      StepKeepsHealthy(s, acts[0], c);
      hide Inv, Healthy, Enabled, Apply, Cause;
      StaysHealthy(Apply(s, acts[0]), acts[1..], c);
    }
  }

  /** So is every new client. */
  lemma NewClientIsHealthy(s: State, c: nat, user: string)
    requires Reachable(s) && Enabled(s, Register(c, user))
    ensures Healthy(Apply(s, Register(c, user)), c) && InHub(Apply(s, Register(c, user)), c)
  {
    ReachableInv(s);
    var s' := Apply(s, Register(c, user));
    forall t ensures !Against(t, PcOf(s', t), c) { assert ThreadOk(t, PcOf(s, t), s.clients, s.hubLock); }
  }

  // ----- Whoever is in the hub gets every broadcast -----

  /** A client in the hub, open or not, has been queued all it was due, up to the broadcast under way; and the hub loop
      closes only clients it has taken out. */
  ghost predicate HubServes(s: State) {
    && (forall c :: c in s.clients && InHub(s, c) && !Dropping(PcOf(s, HubLoop), c) ==>
          s.clients[c].due == Line(s.clients[c]) + if Pending(PcOf(s, HubLoop), s.cast, c) then [s.cast.number] else [])
    && (PcOf(s, HubLoop).Closing? && PcOf(s, HubLoop).c in s.clients ==> !InHub(s, PcOf(s, HubLoop).c))
  }

  /** Nobody comes back into the hub. */
  ghost predicate HubShrinks(s: State, s': State) {
    forall c :: c in s.clients && c in s'.clients && InHub(s', c) ==> InHub(s, c)
  }

  lemma AwayServes(s: State, s': State, t: Tid, c: nat)
    requires HubServes(s) && t != HubLoop && Moves(s, s', t, c) && s'.cast == s.cast && HubShrinks(s, s')
    requires SameToHub(s.clients[c], s'.clients[c])
    ensures HubServes(s')
  {
    hide ThreadOk, ClientOk, Guarantee, Casts, Line, Pending, Dropping, InHub;
    assert PcOf(s', HubLoop) == PcOf(s, HubLoop);
  }

  /** Steps of other goroutines put nobody into the hub. */
  lemma AwayShrinks(s: State, t: Tid)
    requires LocksOk(s) && CanStep(s, t, PcOf(s, t)) && OnClient(PcOf(s, t))
    ensures HubShrinks(s, PcStep(s, t))
  {
    var pc := PcOf(s, t);
    match pc
    case Enqueue(_, _, _) => EnqueueMoves(s, t); EnqueueLeaves(s, t); hide PcStep, CanStep, LocksOk, ThreadOk, ClientOk;
    case Closing(_, _, _) =>
      assert ThreadOk(t, pc, s.clients, s.hubLock) && ClientOk(s.clients[pc.c]);
      CloseMoves(s, t); CloseEffects(s, t); hide PcStep, CanStep, LocksOk, ThreadOk, ClientOk;
    case Unregister(_) => hide LocksOk;
  }

  lemma AwayStepServes(s: State, t: Tid)
    requires LocksOk(s) && HubServes(s) && t != HubLoop && CanStep(s, t, PcOf(s, t)) && OnClient(PcOf(s, t))
    ensures HubServes(PcStep(s, t))
  {
    var s', c := PcStep(s, t), PcOf(s, t).c;
    AwayShrinks(s, t);
    match PcOf(s, t)
    case Enqueue(_, _, _) => EnqueueMoves(s, t); AwayEnqueueSame(s, t); hide *; AwayServes(s, s', t, c);
    case Closing(_, _, _) => CloseMoves(s, t); CloseSame(s, t); hide *; AwayServes(s, s', t, c);
    case Unregister(_) => UnregisterMoves(s, t); UnregisterSame(s, t); hide *; AwayServes(s, s', t, c);
  }

  lemma UnregisterSame(s: State, t: Tid)
    requires PcOf(s, t).Unregister? && CanStep(s, t, PcOf(s, t))
    ensures PcStep(s, t).clients == s.clients && PcStep(s, t).cast == s.cast
    ensures PcOf(s, t).c in s.clients && SameToHub(s.clients[PcOf(s, t).c], PcStep(s, t).clients[PcOf(s, t).c])
  {
  }

  lemma PumpServes(s: State, a: Action)
    requires LocksOk(s) && PumpsOk(s) && HubServes(s) && Enabled(s, a)
    requires a.Receive? || a.Write? || a.PingFails? || a.Answer? || a.Leave?
    ensures HubServes(Apply(s, a))
  {
    OtherMoves(s, a);
    AwayLeaves(s, a);
    var s' := Apply(s, a);
    hide LocksOk, PumpsOk, HubServes, Moves, Enabled, Apply, SameToHub, Mover;
    AwayServes(s, s', Mover(a), a.c);
  }

  /** The hub loop queues, or fails to. */
  lemma HubEnqueueServes(s: State)
    requires LocksOk(s) && CastOk(s) && HubServes(s) && PcOf(s, HubLoop).Enqueue? && CanStep(s, HubLoop, PcOf(s, HubLoop))
    ensures HubServes(PcStep(s, HubLoop))
  {
    var s', pc := PcStep(s, HubLoop), PcOf(s, HubLoop);
    assert ThreadOk(HubLoop, pc, s.clients, s.hubLock);
    var cl := s.clients[pc.c];
    EnqueueLeaves(s, HubLoop);
    EnqueueMoves(s, HubLoop);
    HubEnqueueLine(s, cl, pc.c, pc.frame, pc.stage);
    hide LocksOk, CastsIn, EnqueueStep, ThreadOk, ClientOk, Guarantee, CanStep;
    forall c | c in s'.clients && InHub(s', c) && !Dropping(PcOf(s', HubLoop), c)
      ensures s'.clients[c].due == Line(s'.clients[c]) + if Pending(PcOf(s', HubLoop), s'.cast, c) then [s'.cast.number] else []
    {
      assert InHub(s, c);
    }
  }

  lemma HubEnqueueLine(s: State, cl: Client, c: nat, frame: Frame, stage: EnqueueStage)
    requires c in s.clients && cl == s.clients[c] && frame == Created(s.cast.number) && c !in s.cast.clients
    requires ClientAt(HubLoop, Enqueue(c, frame, stage), cl) && PcOf(s, HubLoop) == Enqueue(c, frame, stage)
    ensures var s' := EnqueueStep(s, HubLoop, c, frame, stage);
      && c in s'.clients && s'.cast == s.cast && s'.clients[c].due == cl.due
      && var pc' := PcOf(s', HubLoop);
         && (pc'.Enqueue? ==> pc'.c == c && pc'.frame == frame) && (pc'.Unregister? ==> pc'.c == c) && !pc'.Closing?
         && (Dropping(pc', c) || Dropping(PcOf(s, HubLoop), c)
             || Line(s'.clients[c]) + (if Pending(pc', s.cast, c) then [s.cast.number] else [])
                == Line(cl) + (if Pending(PcOf(s, HubLoop), s.cast, c) then [s.cast.number] else []))
         && (Dropping(PcOf(s, HubLoop), c) ==> Dropping(pc', c))
  {
    QueuedLine(cl.written, cl.inHand, cl.queue, frame);
    hide CastsIn;
  }

  lemma HubUnregisterServes(s: State)
    requires LocksOk(s) && HubServes(s) && PcOf(s, HubLoop).Unregister? && CanStep(s, HubLoop, PcOf(s, HubLoop))
    ensures HubServes(PcStep(s, HubLoop))
  {
    UnregisterSame(s, HubLoop);
    AwayShrinks(s, HubLoop);
    UnregisterTakesOut(s, HubLoop);
    hide LocksOk, Line, SameToHub, CanStep, PcStep, HubShrinks, InHub;
    var s', pc := PcStep(s, HubLoop), PcOf(s, HubLoop);
    forall c | c in s'.clients && InHub(s', c) && !Dropping(PcOf(s', HubLoop), c)
      ensures s'.clients[c].due == Line(s'.clients[c]) + if Pending(PcOf(s', HubLoop), s'.cast, c) then [s'.cast.number] else []
    {
      WasInHub(s, s', c);
    }
  }

  lemma WasInHub(s: State, s': State, c: nat)
    requires HubShrinks(s, s') && c in s.clients && c in s'.clients && InHub(s', c)
    ensures InHub(s, c)
  {
  }

  lemma UnregisterTakesOut(s: State, t: Tid)
    requires PcOf(s, t).Unregister? && CanStep(s, t, PcOf(s, t))
    ensures var (s', pc) := (PcStep(s, t), PcOf(s, t));
      && pc.c in s'.clients && !InHub(s', pc.c)
      && (PcOf(s', t) == Back(t) || (PcOf(s', t).Closing? && PcOf(s', t).c == pc.c))
  {
  }

  lemma HubCloseServes(s: State)
    requires LocksOk(s) && HubServes(s) && PcOf(s, HubLoop).Closing? && CanStep(s, HubLoop, PcOf(s, HubLoop))
    ensures HubServes(PcStep(s, HubLoop))
  {
    CloseMoves(s, HubLoop);
    CloseSame(s, HubLoop);
    HubCloses(s);
    AwayShrinks(s, HubLoop);
    var s', pc := PcStep(s, HubLoop), PcOf(s, HubLoop);
    hide LocksOk, Line, CanStep, PcStep, ThreadOk, ClientOk, Guarantee, InHub;
    forall c | c in s'.clients && InHub(s', c) && !Dropping(PcOf(s', HubLoop), c)
      ensures s'.clients[c].due == Line(s'.clients[c]) + if Pending(PcOf(s', HubLoop), s'.cast, c) then [s'.cast.number] else []
    {
      assert InHub(s, c) && c != pc.c;
    }
  }

  lemma SnapshotServes(s: State, order: seq<nat>)
    requires UsersOk(s) && HubServes(s) && Enabled(s, Snapshot(order))
    ensures HubServes(Apply(s, Snapshot(order)))
  {
    var s' := Apply(s, Snapshot(order));
    hide CastsIn;
    forall c | c in s'.clients && InHub(s', c)
      ensures s'.clients[c].due == Line(s'.clients[c]) + if Pending(PcOf(s', HubLoop), s'.cast, c) then [s'.cast.number] else []
    {
      assert InHub(s, c);
    }
  }

  lemma CastServes(s: State)
    requires HubServes(s) && PcOf(s, HubLoop).Casting? && CanStep(s, HubLoop, Casting)
    ensures HubServes(CastStep(s))
  {
    var s' := CastStep(s);
    hide Line;
    forall c | c in s'.clients && InHub(s', c) && !Dropping(PcOf(s', HubLoop), c)
      ensures s'.clients[c].due == Line(s'.clients[c]) + if Pending(PcOf(s', HubLoop), s'.cast, c) then [s'.cast.number] else []
    {
      assert InHub(s, c);
    }
  }

  lemma BroadcastServes(s: State, a: Action)
    requires LocksOk(s) && CastOk(s) && HubServes(s) && Enabled(s, a) && (a.Broadcast? || a.Register?)
    ensures HubServes(Apply(s, a))
  {
    var s', pc := Apply(s, a), PcOf(s, HubLoop);
    assert ThreadOk(HubLoop, pc, s.clients, s.hubLock);
    NothingQueued();
    hide LocksOk, CastsIn, ThreadOk;
    forall c | c in s'.clients && InHub(s', c) && !Dropping(PcOf(s', HubLoop), c)
      ensures s'.clients[c].due == Line(s'.clients[c]) + if Pending(PcOf(s', HubLoop), s'.cast, c) then [s'.cast.number] else []
    {
      if c in s.clients { assert InHub(s, c); }
    }
  }

  lemma NothingQueued()
    ensures CastsIn([], None, []) == []
  {
  }

  /** Only the hub loop casts. */
  lemma HubAlone(s: State, t: Tid)
    requires LocksOk(s) && PcOf(s, t).Casting?
    ensures t == HubLoop
  {
    assert ThreadOk(t, PcOf(s, t), s.clients, s.hubLock);
  }

  lemma StepServes(s: State, a: Action)
    requires Inv(s) && HubServes(s) && Enabled(s, a)
    ensures HubServes(Apply(s, a))
  {
    hide LocksOk, UsersOk, GoneOk, DueOk, CastOk, PumpsOk, HubServes;
    if a.Step? {
      match PcOf(s, a.t)
      case Casting => HubAlone(s, a.t); CastServes(s);
      case Enqueue(_, _, _) => if a.t == HubLoop { HubEnqueueServes(s); } else { AwayStepServes(s, a.t); }
      case Unregister(_) => if a.t == HubLoop { HubUnregisterServes(s); } else { AwayStepServes(s, a.t); }
      case Closing(_, _, _) => if a.t == HubLoop { HubCloseServes(s); } else { AwayStepServes(s, a.t); }
    } else if a.Snapshot? {
      SnapshotServes(s, a.order);
    } else if a.Broadcast? || a.Register? {
      BroadcastServes(s, a);
    } else {
      PumpServes(s, a);
    }
  }

  lemma {:induction false} RunServes(s: State, acts: seq<Action>)
    requires Inv(s) && HubServes(s) && Runs(s, acts)
    ensures HubServes(Exec(s, acts))
    decreases |acts|
  {
    if acts != [] {
      StepKeepsInv(s, acts[0]);
      StepServes(s, acts[0]);
      hide Inv, HubServes, Enabled, Apply;
      RunServes(Apply(s, acts[0]), acts[1..]);
    }
  }

  /** Between broadcasts every client in the hub, even one that is closed and not taken out yet, has been queued exactly the
      broadcasts whose snapshot held it: a client the hub cannot queue to does not stay in it. */
  lemma HubClientsMissNothing(s: State, c: nat)
    requires Reachable(s) && c in s.clients && InHub(s, c) && PcOf(s, HubLoop).Resting?
    ensures Line(s.clients[c]) == s.clients[c].due
  {
    assert Inv(START) && HubServes(START);
    ReachableInv(s);
    hide Inv, HubServes, Runs, Exec;
    var acts :| Runs(START, acts) && s == Exec(START, acts);
    RunServes(START, acts);
    AtRest(s, c);
  }

  lemma AtRest(s: State, c: nat)
    requires HubServes(s) && CastOk(s) && c in s.clients && InHub(s, c) && PcOf(s, HubLoop).Resting?
    ensures Line(s.clients[c]) == s.clients[c].due
  {
    hide Line;
    assert s.clients[c].due == Line(s.clients[c]) + [];
  }

  // ----- One broadcast, from its beginning to its end -----

  /** What one step changes of the broadcast and of what a client was due. */
  lemma StepDue(s: State, a: Action, c: nat)
    requires Enabled(s, a) && c in s.clients
    ensures var s' := Apply(s, a);
      && c in s'.clients && s'.clients[c].user == s.clients[c].user
      && (a.Broadcast? || (s'.cast.number == s.cast.number && s'.cast.sender == s.cast.sender))
      && (a.Snapshot? || s'.clients[c].due == s.clients[c].due)
      && (a.Broadcast? || a.Snapshot? || (a.Step? && PcOf(s, a.t).Casting?) || s'.cast.members == s.cast.members)
      && (a.Broadcast? || (a.Step? && PcOf(s, a.t).Casting?) || (PcOf(s', HubLoop).Resting? ==> PcOf(s, HubLoop).Resting?))
  {
    if a.Snapshot? { NotedUsers(s, a.order, c); }
    if a.Step? && OnClient(PcOf(s, a.t)) { OperationDue(s, a.t, c); hide PcStep; }
    hide Noted;
  }

  /** An operation on a client is no part of this. */
  lemma OperationDue(s: State, t: Tid, c: nat)
    requires c in s.clients && OnClient(PcOf(s, t)) && CanStep(s, t, PcOf(s, t))
    ensures var s' := PcStep(s, t);
      && c in s'.clients && s'.clients[c].user == s.clients[c].user && s'.clients[c].due == s.clients[c].due && s'.cast == s.cast
      && (PcOf(s', HubLoop).Resting? ==> PcOf(s, HubLoop).Resting?)
  {
    var pc := PcOf(s, t);
    match pc
    case Enqueue(x, frame, stage) => EnqueueDue(s, t, x, frame, stage, c); hide EnqueueStep;
    case Closing(x, at, held) => CloseDue(s, t, x, at, held, c); hide CloseStep;
    case Unregister(x) =>
  }

  lemma EnqueueDue(s: State, t: Tid, x: nat, frame: Frame, stage: EnqueueStage, c: nat)
    requires c in s.clients && x in s.clients
    ensures var s' := EnqueueStep(s, t, x, frame, stage);
      && c in s'.clients && s'.clients[c].user == s.clients[c].user && s'.clients[c].due == s.clients[c].due && s'.cast == s.cast
      && (PcOf(s', HubLoop).Resting? ==> PcOf(s, HubLoop).Resting?)
  {
  }

  lemma CloseDue(s: State, t: Tid, x: nat, at: CloseStage, held: bool, c: nat)
    requires c in s.clients && x in s.clients
    ensures var s' := CloseStep(s, t, x, at, held);
      && c in s'.clients && s'.clients[c].user == s.clients[c].user && s'.clients[c].due == s.clients[c].due && s'.cast == s.cast
      && (PcOf(s', HubLoop).Resting? ==> PcOf(s, HubLoop).Resting?)
  {
    CloseLeavesQueue(s, t, x, at, held);
    CloseOnly(s, t, x, at, held);
    hide CloseStep;
  }

  lemma CloseOnly(s: State, t: Tid, x: nat, at: CloseStage, held: bool)
    requires x in s.clients
    ensures var s' := CloseStep(s, t, x, at, held);
      && x in s'.clients && s'.clients == s.clients[x := s'.clients[x]] && s'.clients[x].user == s.clients[x].user
      && (s'.threads == s.threads || s'.threads == s.threads[t := Back(t)] || (t in s'.threads && s'.threads[t].Closing?
          && s'.threads == s.threads[t := s'.threads[t]]))
  {
  }

  lemma NotedUsers(s: State, order: seq<nat>, c: nat)
    requires c in s.clients
    ensures c in Noted(s, order) && Noted(s, order)[c].user == s.clients[c].user
    ensures Noted(s, order)[c].due == s.clients[c].due + if c in order then [s.cast.number] else []
  {
  }

  /** In broadcast `n` the client's user is still to come, or the client was in the snapshot. */
  ghost predicate Due(s: State, n: nat, c: nat, user: string) {
    && s.cast.number == n && s.cast.sender != user && c in s.clients && s.clients[c].user == user
    && (user in s.cast.members || n in s.clients[c].due)
    && (PcOf(s, HubLoop).Resting? ==> s.cast.members == [])
  }

  lemma StepKeepsDue(s: State, a: Action, n: nat, c: nat, user: string)
    requires Inv(s) && Healthy(s, c) && Due(s, n, c, user) && Enabled(s, a) && !a.Broadcast?
    ensures Due(Apply(s, a), n, c, user)
  {
    StepDue(s, a, c);
    var s' := Apply(s, a);
    if a.Snapshot? {
      NotedUsers(s, a.order, c);
      assert InHub(s, c) by { hide LocksOk, UsersOk, DueOk, CastOk, PumpsOk; }
      hide Inv, Healthy, Noted;
      MembersShift(s.cast.members);
    } else if a.Step? && PcOf(s, a.t).Casting? {
      hide Inv, Healthy;
      if s.cast.members != [] { MembersShift(s.cast.members); }
    } else {
      hide Inv, Healthy, Apply, Enabled;
    }
  }

  lemma MembersShift(members: seq<string>)
    requires members != []
    ensures forall u :: u in members <==> u == members[0] || u in members[1..]
  {
  }

  lemma {:induction false} RunKeepsDue(s: State, acts: seq<Action>, n: nat, c: nat, user: string)
    requires Inv(s) && Healthy(s, c) && Due(s, n, c, user) && Runs(s, acts) && NoCause(s, acts, c)
    requires forall a :: a in acts ==> !a.Broadcast?
    ensures Due(Exec(s, acts), n, c, user)
    decreases |acts|
  {
    if acts != [] {
      StepKeepsDue(s, acts[0], n, c, user);
      StepKeepsInv(s, acts[0]);
      StepKeepsHealthy(s, acts[0], c);
      hide Inv, Healthy, Enabled, Apply, Cause, Due;
      RunKeepsDue(Apply(s, acts[0]), acts[1..], n, c, user);
    }
  }

  /** A broadcast that has come to its end has queued its frame for every client of every member but the sender that was in
      good health when it began, and met no cause to be dropped since. */
  lemma BroadcastReaches(s: State, sender: string, members: seq<string>, acts: seq<Action>, c: nat)
    requires Reachable(s) && Enabled(s, Broadcast(sender, members))
    requires Healthy(s, c) && s.clients[c].user in members && s.clients[c].user != sender
    requires var s1 := Apply(s, Broadcast(sender, members));
      Runs(s1, acts) && NoCause(s1, acts, c) && (forall a :: a in acts ==> !a.Broadcast?) && PcOf(Exec(s1, acts), HubLoop).Resting?
    ensures var t := Exec(Apply(s, Broadcast(sender, members)), acts);
      c in t.clients && !t.clients[c].closed && s.cast.number + 1 in Line(t.clients[c])
  {
    BroadcastBegins(s, sender, members);
    HealthyBegins(s, sender, members, c);
    var s1 := Apply(s, Broadcast(sender, members));
    hide Inv, Line, Reachable, Healthy, Apply, Enabled;
    RunKeepsDue(s1, acts, s.cast.number + 1, c, s.clients[c].user);
    HealthyClientsStay(s1, acts, c);
    ReachesOn(s1, acts);
    DueIsQueued(Exec(s1, acts), s.cast.number + 1, c, s.clients[c].user);
  }

  lemma BroadcastBegins(s: State, sender: string, members: seq<string>)
    requires Reachable(s) && Enabled(s, Broadcast(sender, members))
    ensures var s1 := Apply(s, Broadcast(sender, members)); Reachable(s1) && Inv(s1)
  {
    var a := Broadcast(sender, members);
    assert Runs(s, [a]) && Exec(s, [a]) == Apply(s, a) by { assert [a][1..] == []; }
    hide Inv;
    ReachesOn(s, [a]);
    ReachableInv(Apply(s, a));
  }

  lemma HealthyBegins(s: State, sender: string, members: seq<string>, c: nat)
    requires Reachable(s) && Enabled(s, Broadcast(sender, members)) && Healthy(s, c)
    requires s.clients[c].user in members && s.clients[c].user != sender
    ensures var s1 := Apply(s, Broadcast(sender, members));
      Healthy(s1, c) && Due(s1, s.cast.number + 1, c, s.clients[c].user)
  {
    ReachableInv(s);
    StepKeepsHealthy(s, Broadcast(sender, members), c);
    hide LocksOk, Healthy;
  }

  lemma DueIsQueued(s: State, n: nat, c: nat, user: string)
    requires Reachable(s) && Healthy(s, c) && Due(s, n, c, user) && PcOf(s, HubLoop).Resting?
    ensures c in s.clients && !s.clients[c].closed && n in Line(s.clients[c])
  {
    hide Reachable, Line;
    OpenClientsMissNothing(s, c);
  }

  /** What clients are due are broadcasts that have begun, and the current one only for members other than its sender. */
  ghost predicate DueFor(s: State, members: seq<string>, sender: string) {
    && s.cast.sender == sender && (forall u :: u in s.cast.members ==> u in members)
    && forall c :: c in s.clients && s.cast.number in s.clients[c].due ==> s.clients[c].user in members && s.clients[c].user != sender
  }

  ghost predicate DueBegun(s: State) {
    forall c, n :: c in s.clients && n in s.clients[c].due ==> n <= s.cast.number
  }

  lemma StepKeepsBegun(s: State, a: Action)
    requires DueBegun(s) && Enabled(s, a)
    ensures DueBegun(Apply(s, a))
  {
    var s' := Apply(s, a);
    forall c, n | c in s'.clients && n in s'.clients[c].due ensures n <= s'.cast.number {
      if c in s.clients {
        StepDue(s, a, c);
        if a.Snapshot? { NotedUsers(s, a.order, c); }
      }
      hide Noted, PcStep;
    }
  }

  lemma StepKeepsFor(s: State, a: Action, members: seq<string>, sender: string)
    requires UsersOk(s) && DueFor(s, members, sender) && Enabled(s, a) && !a.Broadcast?
    ensures DueFor(Apply(s, a), members, sender)
  {
    var s' := Apply(s, a);
    CastShrinks(s, a);
    forall c | c in s'.clients && s'.cast.number in s'.clients[c].due ensures s'.clients[c].user in members && s'.clients[c].user != sender {
      if c in s.clients {
        StepDue(s, a, c);
        if a.Snapshot? { NotedUsers(s, a.order, c); }
      }
      hide Noted, PcStep;
    }
  }

  lemma CastShrinks(s: State, a: Action)
    requires Enabled(s, a) && !a.Broadcast?
    ensures var s' := Apply(s, a);
      s'.cast.sender == s.cast.sender && s'.cast.number == s.cast.number && forall u :: u in s'.cast.members ==> u in s.cast.members
  {
    if a.Step? && PcOf(s, a.t).Closing? { CloseLeavesQueue(s, a.t, PcOf(s, a.t).c, PcOf(s, a.t).at, PcOf(s, a.t).held); }
    hide Noted, CloseStep;
  }

  lemma {:induction false} RunKeepsFor(s: State, acts: seq<Action>, members: seq<string>, sender: string)
    requires Inv(s) && DueFor(s, members, sender) && Runs(s, acts) && forall a :: a in acts ==> !a.Broadcast?
    ensures DueFor(Exec(s, acts), members, sender) && Exec(s, acts).cast.number == s.cast.number
    decreases |acts|
  {
    if acts != [] {
      StepKeepsFor(s, acts[0], members, sender);
      CastShrinks(s, acts[0]);
      StepKeepsInv(s, acts[0]);
      hide Inv, Enabled, Apply, DueFor;
      RunKeepsFor(Apply(s, acts[0]), acts[1..], members, sender);
    }
  }

  lemma {:induction false} RunKeepsBegun(s: State, acts: seq<Action>)
    requires DueBegun(s) && Runs(s, acts)
    ensures DueBegun(Exec(s, acts))
    decreases |acts|
  {
    if acts != [] {
      StepKeepsBegun(s, acts[0]);
      hide Enabled, Apply, DueBegun;
      RunKeepsBegun(Apply(s, acts[0]), acts[1..]);
    }
  }

  /** And it reaches nobody else: whoever is due or has got the frame is a client of a member other than the sender. */
  lemma BroadcastReachesOnly(s: State, sender: string, members: seq<string>, acts: seq<Action>, c: nat)
    requires Reachable(s) && Enabled(s, Broadcast(sender, members))
    requires var s1 := Apply(s, Broadcast(sender, members)); Runs(s1, acts) && forall a :: a in acts ==> !a.Broadcast?
    requires var t := Exec(Apply(s, Broadcast(sender, members)), acts); c in t.clients && s.cast.number + 1 in Line(t.clients[c])
    ensures var user := Exec(Apply(s, Broadcast(sender, members)), acts).clients[c].user; user in members && user != sender
  {
    BroadcastBegins(s, sender, members);
    ForBegins(s, sender, members);
    var s1 := Apply(s, Broadcast(sender, members));
    var t := Exec(s1, acts);
    hide Inv, Line, Reachable, Apply, Enabled, Exec;
    RunKeepsFor(s1, acts, members, sender);
    ReachesOn(s1, acts);
    OpenClientsMissNothing(t, c);
    assert s.cast.number + 1 in t.clients[c].due;
  }

  lemma ForBegins(s: State, sender: string, members: seq<string>)
    requires Reachable(s) && Enabled(s, Broadcast(sender, members))
    ensures var s1 := Apply(s, Broadcast(sender, members)); DueFor(s1, members, sender) && s1.cast.number == s.cast.number + 1
  {
    ReachableBegun(s);
    hide Reachable;
  }

  lemma ReachableBegun(s: State)
    requires Reachable(s)
    ensures DueBegun(s)
  {
    assert DueBegun(START);
    hide DueBegun, Runs, Exec;
    var acts :| Runs(START, acts) && s == Exec(START, acts);
    RunKeepsBegun(START, acts);
  }
}
