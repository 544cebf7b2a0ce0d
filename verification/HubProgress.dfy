/** The hub never gets stuck: although a client is closed under the hub's lock, and its own lock and `sync.Once` make
    goroutines wait for each other, whoever is inside an operation gets out. */
module HubProgress {
  import opened Domain
  import opened Hub

  // ----- Whoever holds something is inside the operation that took it -----

  predicate Closes(pc: Pc, c: nat) { pc.Closing? && pc.c == c && !pc.at.Begin? }

  predicate Reads(pc: Pc, c: nat) { pc.Enqueue? && pc.c == c && !pc.stage.Want? }

  ghost predicate HoldersIn(s: State) {
    forall c, t :: c in s.clients ==>
      && (s.clients[c].once == Running(t) ==> Closes(PcOf(s, t), c))
      && (t in s.clients[c].readers ==> Reads(PcOf(s, t), c))
  }

  /** A goroutine that moved on one client has taken and given back only there. */
  lemma MovesKeepHolders(s: State, s': State, t: Tid, c: nat)
    requires HoldersIn(s) && Moves(s, s', t, c)
    requires OnClient(PcOf(s, t)) ==> PcOf(s, t).c == c
    requires s'.clients[c].once == Running(t) ==> Closes(PcOf(s', t), c)
    requires s'.clients[c].once.Running? ==> s'.clients[c].once == s.clients[c].once || s'.clients[c].once == Running(t)
    requires t in s'.clients[c].readers ==> Reads(PcOf(s', t), c)
    ensures HoldersIn(s')
  {
    hide ThreadOk, ClientOk;
    forall d, x | d in s'.clients
      ensures s'.clients[d].once == Running(x) ==> Closes(PcOf(s', x), d)
      ensures x in s'.clients[d].readers ==> Reads(PcOf(s', x), d)
    {
      assert d in s.clients;
      assert s.clients[d].once == Running(x) ==> Closes(PcOf(s, x), d);
      assert x in s.clients[d].readers ==> Reads(PcOf(s, x), d);
    }
  }

  lemma EnqueueKeepsHolders(s: State, t: Tid)
    requires LocksOk(s) && HoldersIn(s) && PcOf(s, t).Enqueue? && CanStep(s, t, PcOf(s, t))
    ensures HoldersIn(PcStep(s, t))
  {
    EnqueueMoves(s, t);
    var c := PcOf(s, t).c;
    assert s.clients[c].once == Running(t) ==> Closes(PcOf(s, t), c);
    EnqueueLocal(s, t, c, PcOf(s, t).frame, PcOf(s, t).stage);
    hide LocksOk, EnqueueStep, HoldersIn, Moves;
    MovesKeepHolders(s, PcStep(s, t), t, c);
  }

  lemma EnqueueLocal(s: State, t: Tid, c: nat, frame: Frame, stage: EnqueueStage)
    requires c in s.clients && PcOf(s, t) == Enqueue(c, frame, stage)
    requires t in s.clients[c].readers ==> !stage.Want?
    ensures var s' := EnqueueStep(s, t, c, frame, stage);
      && c in s'.clients && s'.clients[c].once == s.clients[c].once
      && (t in s'.clients[c].readers ==> Reads(PcOf(s', t), c))
  {
  }

  lemma CloseKeepsHolders(s: State, t: Tid)
    requires LocksOk(s) && HoldersIn(s) && PcOf(s, t).Closing? && CanStep(s, t, PcOf(s, t))
    ensures HoldersIn(PcStep(s, t))
  {
    CloseMoves(s, t);
    var c := PcOf(s, t).c;
    assert ThreadOk(t, PcOf(s, t), s.clients, s.hubLock);
    assert s.clients[c].once == Running(t) ==> Closes(PcOf(s, t), c);
    assert t in s.clients[c].readers ==> Reads(PcOf(s, t), c);
    CloseLocal(s, t, c, PcOf(s, t).at, PcOf(s, t).held);
    hide LocksOk, CloseStep, HoldersIn, Moves;
    MovesKeepHolders(s, PcStep(s, t), t, c);
  }

  lemma CloseLocal(s: State, t: Tid, c: nat, at: CloseStage, held: bool)
    requires c in s.clients && PcOf(s, t) == Closing(c, at, held) && t !in s.clients[c].readers
    requires s.clients[c].once == Running(t) <==> !at.Begin?
    ensures var s' := CloseStep(s, t, c, at, held);
      && c in s'.clients && t !in s'.clients[c].readers
      && (s'.clients[c].once == Running(t) ==> Closes(PcOf(s', t), c))
      && (s'.clients[c].once.Running? ==> s'.clients[c].once == s.clients[c].once || s'.clients[c].once == Running(t))
  {
  }

  lemma UnregisterKeepsHolders(s: State, t: Tid)
    requires LocksOk(s) && HoldersIn(s) && PcOf(s, t).Unregister? && CanStep(s, t, PcOf(s, t))
    ensures HoldersIn(PcStep(s, t))
  {
    UnregisterMoves(s, t);
    var c := PcOf(s, t).c;
    assert s.clients[c].once == Running(t) ==> Closes(PcOf(s, t), c);
    assert t in s.clients[c].readers ==> Reads(PcOf(s, t), c);
    assert PcStep(s, t).clients == s.clients;
    hide LocksOk, HoldersIn, Moves, PcStep;
    MovesKeepHolders(s, PcStep(s, t), t, c);
  }

  /** Steps of goroutines that hold nothing, and take nothing. */
  lemma OthersKeepHolders(s: State, a: Action)
    requires LocksOk(s) && HoldersIn(s) && Enabled(s, a) && (a.Answer? || a.Leave? || a.Receive? || a.Write? || a.PingFails?)
    ensures HoldersIn(Apply(s, a))
  {
    OtherMoves(s, a);
    var t := Mover(a);
    assert s.clients[a.c].once == Running(t) ==> Closes(PcOf(s, t), a.c);
    assert t in s.clients[a.c].readers ==> Reads(PcOf(s, t), a.c);
    hide LocksOk, HoldersIn, Moves;
    MovesKeepHolders(s, Apply(s, a), t, a.c);
  }

  lemma QuietKeepsHolders(s: State, a: Action)
    requires HoldersIn(s) && Enabled(s, a)
    requires a.Broadcast? || a.Snapshot? || a.Register? || (a.Step? && PcOf(s, a.t).Casting?)
    ensures HoldersIn(Apply(s, a))
  {
    var s' := Apply(s, a);
    forall c, t | c in s'.clients
      ensures s'.clients[c].once == Running(t) ==> Closes(PcOf(s', t), c)
      ensures t in s'.clients[c].readers ==> Reads(PcOf(s', t), c)
    {
      if c in s.clients {
        assert s.clients[c].once == Running(t) ==> Closes(PcOf(s, t), c);
        assert t in s.clients[c].readers ==> Reads(PcOf(s, t), c);
      }
    }
  }

  lemma StepKeepsHolders(s: State, a: Action)
    requires LocksOk(s) && HoldersIn(s) && Enabled(s, a)
    ensures HoldersIn(Apply(s, a))
  {
    hide LocksOk, HoldersIn;
    if a.Step? {
      match PcOf(s, a.t)
      case Casting => QuietKeepsHolders(s, a);
      case Enqueue(_, _, _) => EnqueueKeepsHolders(s, a.t);
      case Unregister(_) => UnregisterKeepsHolders(s, a.t);
      case Closing(_, _, _) => CloseKeepsHolders(s, a.t);
    } else if a.Broadcast? || a.Snapshot? || a.Register? {
      QuietKeepsHolders(s, a);
    } else {
      OthersKeepHolders(s, a);
    }
  }

  lemma {:induction false} RunKeepsHolders(s: State, acts: seq<Action>)
    requires Inv(s) && HoldersIn(s) && Runs(s, acts)
    ensures Inv(Exec(s, acts)) && HoldersIn(Exec(s, acts))
    decreases |acts|
  {
    if acts != [] {
      StepKeepsInv(s, acts[0]);
      StepKeepsHolders(s, acts[0]);
      hide Inv, HoldersIn, Enabled, Apply;
      RunKeepsHolders(Apply(s, acts[0]), acts[1..]);
    }
  }

  lemma ReachableHolders(s: State)
    requires Reachable(s)
    ensures Inv(s) && HoldersIn(s)
  {
    assert Inv(START) && HoldersIn(START);
    hide Inv, HoldersIn, Runs, Exec;
    var acts :| Runs(START, acts) && s == Exec(START, acts);
    RunKeepsHolders(START, acts);
  }

  // ----- Nobody is stuck -----

  /** A goroutine is waiting for the write lock of the client. */
  ghost predicate WriterWaits(s: State, c: nat) {
    exists t :: PcOf(s, t).Closing? && PcOf(s, t).c == c && PcOf(s, t).at.Lock?
  }

  /** The goroutine can take its next step, even if readers have to wait behind a waiting writer. */
  ghost predicate Free(s: State, t: Tid) {
    && CanStep(s, t, PcOf(s, t))
    && (PcOf(s, t).Enqueue? && PcOf(s, t).stage.Want? ==> !WriterWaits(s, PcOf(s, t).c))
  }

  /** The goroutine is inside an operation on a client. */
  predicate Inside(s: State, t: Tid) { OnClient(PcOf(s, t)) }

  /** Whoever has begun to close a client can go on, or waits for a reader who can. */
  lemma CloserGoesOn(s: State, t: Tid) returns (u: Tid)
    requires LocksOk(s) && HoldersIn(s) && PcOf(s, t).Closing? && !PcOf(s, t).at.Begin?
    ensures Inside(s, u) && Free(s, u)
  {
    var pc := PcOf(s, t);
    assert ThreadOk(t, pc, s.clients, s.hubLock);
    u := t;
    if pc.at.Lock? && s.clients[pc.c].readers != {} {
      u :| u in s.clients[pc.c].readers;
      assert Reads(PcOf(s, u), pc.c);
    }
  }

  lemma CloseGoesOn(s: State, t: Tid) returns (u: Tid)
    requires LocksOk(s) && HoldersIn(s) && PcOf(s, t).Closing?
    ensures Inside(s, u) && Free(s, u)
  {
    var pc := PcOf(s, t);
    assert ThreadOk(t, pc, s.clients, s.hubLock);
    if !pc.at.Begin? {
      u := CloserGoesOn(s, t);
    } else if s.clients[pc.c].once.Running? {
      assert Closes(PcOf(s, s.clients[pc.c].once.t), pc.c);
      u := CloserGoesOn(s, s.clients[pc.c].once.t);
    } else {
      u := t;
    }
  }

  lemma EnqueueGoesOn(s: State, t: Tid) returns (u: Tid)
    requires LocksOk(s) && HoldersIn(s) && PcOf(s, t).Enqueue?
    ensures Inside(s, u) && Free(s, u)
  {
    var pc := PcOf(s, t);
    assert ThreadOk(t, pc, s.clients, s.hubLock) && ClientOk(s.clients[pc.c]);
    u := t;
    if pc.stage.Want? {
      if s.clients[pc.c].writer.Some? {
        var w := s.clients[pc.c].writer.value;
        assert Closes(PcOf(s, w), pc.c);
        u := CloserGoesOn(s, w);
      } else if w :| PcOf(s, w).Closing? && PcOf(s, w).c == pc.c && PcOf(s, w).at.Lock? {
        u := CloserGoesOn(s, w);
      }
    }
  }

  /** In every reachable state in which some goroutine is inside an operation, some such goroutine can go on, although
      Unregister closes a client while it holds the hub's lock. */
  lemma NobodyIsStuck(s: State, t: Tid) returns (u: Tid)
    requires Reachable(s) && Inside(s, t)
    ensures Inside(s, u) && Free(s, u)
  {
    ReachableHolders(s);
    var pc := PcOf(s, t);
    assert ThreadOk(t, pc, s.clients, s.hubLock);
    match pc
    case Enqueue(_, _, _) => u := EnqueueGoesOn(s, t);
    case Closing(_, _, _) => u := CloseGoesOn(s, t);
    case Unregister(_) =>
      if s.hubLock.Some? {
        assert ThreadOk(s.hubLock.value, PcOf(s, s.hubLock.value), s.clients, s.hubLock);
        u := CloseGoesOn(s, s.hubLock.value);
      } else {
        u := t;
      }
  }

  // ----- Everybody gets out -----

  /** How many steps an operation may still take. */
  function StepsLeft(pc: Pc): nat {
    match pc
    case Enqueue(_, _, stage) => if stage.Want? then 11 else if stage.Test? then 10 else if stage.Sending? then 9 else 8
    case Unregister(_) => 7
    case Closing(_, at, _) =>
      (match at
       case Begin => 6
       case Lock => 5
       case Flag => 4
       case Channel => 3
       case Release => 2
       case Conn => 1)
    case _ => 0
  }

  ghost function Sum(threads: map<Tid, Pc>, of: set<Tid>): nat
    requires of <= threads.Keys
  {
    if of == {} then 0 else
      var t :| t in of;
      StepsLeft(threads[t]) + Sum(threads, of - {t})
  }

  lemma {:induction false} SumSplits(threads: map<Tid, Pc>, of: set<Tid>, t: Tid)
    requires of <= threads.Keys && t in of
    ensures Sum(threads, of) == StepsLeft(threads[t]) + Sum(threads, of - {t})
    decreases of
  {
    var x :| x in of && Sum(threads, of) == StepsLeft(threads[x]) + Sum(threads, of - {x});
    if x != t {
      SumSplits(threads, of - {x}, t);
      SumSplits(threads, of - {t}, x);
      assert of - {x} - {t} == of - {t} - {x};
    }
  }

  lemma {:induction false} SumSame(threads: map<Tid, Pc>, threads': map<Tid, Pc>, of: set<Tid>)
    requires of <= threads.Keys && of <= threads'.Keys && forall t :: t in of ==> threads'[t] == threads[t]
    ensures Sum(threads, of) == Sum(threads', of)
    decreases of
  {
    if of != {} {
      var t :| t in of;
      SumSplits(threads, of, t);
      SumSplits(threads', of, t);
      SumSame(threads, threads', of - {t});
    }
  }

  /** The steps that all operations under way may still take. */
  ghost function Work(s: State): nat { Sum(s.threads, s.threads.Keys) }

  lemma StepGoesDown(s: State, t: Tid)
    requires LocksOk(s) && Inside(s, t) && CanStep(s, t, PcOf(s, t))
    ensures var s' := PcStep(s, t); s'.threads == s.threads[t := PcOf(s', t)] && StepsLeft(PcOf(s', t)) < StepsLeft(PcOf(s, t))
  {
    var pc := PcOf(s, t);
    assert ThreadOk(t, pc, s.clients, s.hubLock) && ClientOk(s.clients[pc.c]);
    hide LocksOk;
  }

  lemma StepShrinksWork(s: State, t: Tid)
    requires LocksOk(s) && Inside(s, t) && CanStep(s, t, PcOf(s, t))
    ensures Work(PcStep(s, t)) < Work(s)
  {
    StepGoesDown(s, t);
    var s' := PcStep(s, t);
    hide PcStep, CanStep, LocksOk, StepsLeft;
    assert t in s.threads && s'.threads.Keys == s.threads.Keys;
    SumSplits(s.threads, s.threads.Keys, t);
    SumSplits(s'.threads, s'.threads.Keys, t);
    SumSame(s.threads, s'.threads, s.threads.Keys - {t});
  }

  /** Steps of operations under way, in any order. */
  ghost predicate Inner(s: State, acts: seq<Action>)
    requires Runs(s, acts)
    decreases |acts|
  {
    acts == [] || (acts[0].Step? && Inside(s, acts[0].t) && Inner(Apply(s, acts[0]), acts[1..]))
  }

  lemma {:induction false} InnerShrinks(s: State, acts: seq<Action>)
    requires Inv(s) && Runs(s, acts) && Inner(s, acts)
    ensures |acts| + Work(Exec(s, acts)) <= Work(s)
    decreases |acts|
  {
    if acts != [] {
      StepKeepsInv(s, acts[0]);
      StepShrinksWork(s, acts[0].t);
      hide Inv, Inside, Work;
      InnerShrinks(Apply(s, acts[0]), acts[1..]);
    }
  }

  /** From every reachable state the operations under way end: in whatever order they take their steps, they take no more
      than the work that is left, and until the last of them is over one of them can go on. */
  lemma OperationsEnd(s: State, acts: seq<Action>)
    requires Reachable(s) && Runs(s, acts) && Inner(s, acts)
    ensures |acts| <= Work(s)
    ensures (exists t :: Inside(Exec(s, acts), t)) ==> exists t :: Inside(Exec(s, acts), t) && Free(Exec(s, acts), t)
  {
    ReachableHolders(s);
    InnerShrinks(s, acts);
    ReachesOn(s, acts);
    hide Inv, HoldersIn, Inside, Work, Free, Reachable, Runs, Exec;
    if t :| Inside(Exec(s, acts), t) {
      var u := NobodyIsStuck(Exec(s, acts), t);
    }
  }

  lemma {:induction false} ExecConcat(s: State, first: seq<Action>, second: seq<Action>)
    requires Runs(s, first) && Runs(Exec(s, first), second)
    ensures Runs(s, first + second) && Exec(s, first + second) == Exec(Exec(s, first), second)
    decreases |first|
  {
    hide Enabled, Apply;
    if first == [] {
      assert first + second == second;
    } else {
      assert (first + second)[1..] == first[1..] + second;
      ExecConcat(Apply(s, first[0]), first[1..], second);
    }
  }

  lemma ReachesOn(s: State, acts: seq<Action>)
    requires Reachable(s) && Runs(s, acts)
    ensures Reachable(Exec(s, acts))
  {
    hide Runs, Exec;
    var before :| Runs(START, before) && s == Exec(START, before);
    ExecConcat(START, before, acts);
  }
}
