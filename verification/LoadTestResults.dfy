/** What the figures of a finished run mean: every message was attempted unless somebody stopped the run, and a success is an
    acknowledgement or a good answer. */
module LoadTestResults {
  import opened Domain
  import opened LoadTest

  // ----- What counts as a success -----

  /** The server confirms a message: an acknowledgement that is awaited, or an HTTP answer that is well. */
  predicate Confirms(r: Run, t: Turn) {
    (t.Ack? && t.id in r.wsPending) || (t.Answer? && t.ok)
  }

  ghost function Confirmed(r: Run, ts: seq<Turn>): nat
    requires Runs(r, ts)
    decreases |ts|
  {
    if ts == [] then 0 else (if Confirms(r, ts[0]) then 1 else 0) + Confirmed(Next(r, ts[0]), ts[1..])
  }

  lemma {:induction false} FailAllSucceedsNone(r: Run, ids: seq<string>)
    requires Distinct(ids) && forall id :: id in ids ==> id in r.wsPending
    ensures FailAll(r, ids).success == r.success && FailAll(r, ids).stopRequested == r.stopRequested
    ensures FailAll(r, ids).running == r.running && FailAll(r, ids).workers == r.workers
    decreases |ids|
  {
    if ids != [] {
      assert forall id :: id in ids[1..] ==> id in ids && id != ids[0];
      FailAllSucceedsNone(SettlePending(r, ids[0], Disconnected), ids[1..]);
    }
  }

  lemma DispatchSucceedsNone(r: Run, clock: nat, random: nat, sent: bool)
    ensures Dispatch(r, clock, random, sent).success == r.success
  {
    hide ClientId;
  }

  lemma PassSucceedsNone(r: Run, clock: nat, random: nat, sent: bool)
    ensures LoopPass(r, clock, random, sent).success == r.success
  {
    DispatchSucceedsNone(r, clock, random, sent);
    hide Dispatch, MayDispatch;
  }

  lemma TurnSucceeds(r: Run, t: Turn)
    requires Inv(r) && Enabled(r, t) && !Restarts(r, t)
    ensures Next(r, t).success == r.success + if Confirms(r, t) then 1 else 0
  {
    hide Inv, LoopPass, FailAll, Crew;
    match t
    case Pass(clock, random, sent) => PassSucceedsNone(r, clock, random, sent);
    case Fire(timer) => InvArmed(r); FireSettles(r, timer);
    case Close(order) =>
      if r.running && r.config.mode.Ws? { FailAllSucceedsNone(r.(connected := false, stopRequested := true), order); }
    case _ =>
  }

  lemma InvArmed(r: Run)
    requires Inv(r)
    ensures Armed(r.wsPending, r.timers, r.nextTimer)
  {
  }

  /** Over a run the successes grow by exactly the confirmations. */
  lemma {:induction false} SuccessesAreConfirmed(r: Run, ts: seq<Turn>)
    requires Inv(r) && Runs(r, ts) && OneRun(r, ts)
    ensures Exec(r, ts).success == r.success + Confirmed(r, ts)
    decreases |ts|
  {
    if ts != [] {
      TurnSucceeds(r, ts[0]);
      TurnKeepsInv(r, ts[0]);
      hide Inv, Next, Enabled, Restarts, Confirms;
      SuccessesAreConfirmed(Next(r, ts[0]), ts[1..]);
    }
  }

  // ----- What settles a message -----

  /** What must have happened for a message to be settled with this cause. */
  ghost predicate Happened(r: Run, t: Turn, i: nat, cause: Cause) {
    match cause
    case Acked => t.Ack? && t.id in r.wsPending && r.wsPending[t.id].index == i
    case TimedOut => t.Fire? && t.timer in r.timers && r.timers[t.timer].index == i
    case SendFailed => t.Pass? && i == r.nextIndex && !(t.sent && r.connected)
    case Disconnected => t.Close?
    case Answered => t.Answer? && t.ok && t.w < |r.workers| && r.workers[t.w].Fetching? && r.workers[t.w].index == i
    case Rejected => t.Answer? && !t.ok && t.w < |r.workers| && r.workers[t.w].Fetching? && r.workers[t.w].index == i
  }

  lemma {:induction false} FailAllDisconnects(r: Run, ids: seq<string>, i: nat)
    requires Distinct(ids) && forall id :: id in ids ==> id in r.wsPending
    requires i in FailAll(r, ids).settled && i !in r.settled
    ensures FailAll(r, ids).settled[i] == Disconnected
    decreases |ids|
  {
    if ids != [] {
      assert forall id :: id in ids[1..] ==> id in ids && id != ids[0];
      var r' := SettlePending(r, ids[0], Disconnected);
      if i !in r'.settled { FailAllDisconnects(r', ids[1..], i); } else { FailAllKeepsCause(r', ids[1..], i); }
    }
  }

  lemma {:induction false} FailAllKeepsCause(r: Run, ids: seq<string>, i: nat)
    requires Distinct(ids) && (forall id :: id in ids ==> id in r.wsPending) && i in r.settled && r.settled[i] == Disconnected
    ensures i in FailAll(r, ids).settled && FailAll(r, ids).settled[i] == Disconnected
    decreases |ids|
  {
    if ids != [] {
      assert forall id :: id in ids[1..] ==> id in ids && id != ids[0];
      FailAllKeepsCause(SettlePending(r, ids[0], Disconnected), ids[1..], i);
    }
  }

  lemma DispatchSettles(r: Run, clock: nat, random: nat, sent: bool, i: nat)
    requires i in Dispatch(r, clock, random, sent).settled && i !in r.settled
    ensures Dispatch(r, clock, random, sent).settled[i] == SendFailed && i == r.nextIndex && !(sent && r.connected)
  {
    hide ClientId;
  }

  lemma PassSettles(r: Run, clock: nat, random: nat, sent: bool, i: nat)
    requires i in LoopPass(r, clock, random, sent).settled && i !in r.settled
    ensures LoopPass(r, clock, random, sent).settled[i] == SendFailed && i == r.nextIndex && !(sent && r.connected)
  {
    if r.loop.Inner? && MayDispatch(r) { DispatchSettles(r, clock, random, sent, i); }
    hide Dispatch, MayDispatch;
  }

  /** Each message is settled by what happened to it. */
  lemma SettledAsHappened(r: Run, t: Turn, i: nat)
    requires Inv(r) && Enabled(r, t) && !Restarts(r, t) && i in Next(r, t).settled && i !in r.settled
    ensures Happened(r, t, i, Next(r, t).settled[i])
  {
    hide Inv, LoopPass, FailAll, Crew, ClientId, Distinct;
    match t
    case Pass(clock, random, sent) => PassSettles(r, clock, random, sent, i);
    case Close(order) =>
      if r.running && r.config.mode.Ws? { FailAllDisconnects(r.(connected := false, stopRequested := true), order, i); }
    case Fire(timer) => InvArmed(r); FireSettles(r, timer); ArmedIndex(r, timer);
    case _ =>
  }

  lemma ArmedIndex(r: Run, timer: nat)
    requires Armed(r.wsPending, r.timers, r.nextTimer) && timer in r.timers
    ensures r.timers[timer].id in r.wsPending && r.wsPending[r.timers[timer].id].index == r.timers[timer].index
  {
  }

  /** A frame that was sent leaves its message waiting for the acknowledgement, with a timer. */
  lemma SentAwaits(r: Run, clock: nat, random: nat)
    requires Inv(r) && r.running && r.config.mode.Ws? && r.loop.Inner? && MayDispatch(r) && r.connected
    ensures var r' := Next(r, Pass(clock, random, true));
      && r.nextIndex in r'.open && r'.settled == r.settled && r'.inFlight == r.inFlight + 1
      && exists id :: id in r'.wsPending && r'.wsPending[id].index == r.nextIndex
                      && r'.wsPending[id].timer in r'.timers && r'.timers[r'.wsPending[id].timer] == Timer(id, r.nextIndex)
  {
    var id := ClientId(r.config.prefix, clock, r.nextIndex, random);
    hide ClientId, Inv;
    var r' := Next(r, Pass(clock, random, true));
    assert id in r'.wsPending;
  }

  // ----- Nothing is left out -----

  /** Whoever has ended, a worker or the run, was stopped or found no index left. */
  ghost predicate EndsForCause(r: Run) {
    && (forall w :: 0 <= w < |r.workers| && r.workers[w].Exited? ==> r.stopRequested || r.nextIndex >= r.config.total)
    && (!r.running ==> r.stopRequested || r.nextIndex >= r.config.total)
    && (r.config.mode.Http? ==> r.workers != [])
  }

  lemma PassEndsForCause(r: Run, clock: nat, random: nat, sent: bool)
    requires r.running && EndsForCause(r)
    ensures var r' := LoopPass(r, clock, random, sent); EndsForCause(r') && r'.stopRequested == r.stopRequested
  {
    hide ClientId;
  }

  lemma CloseEndsForCause(r: Run, order: seq<string>)
    requires Inv(r) && EndsForCause(r) && Enabled(r, Close(order))
    ensures EndsForCause(Next(r, Close(order)))
  {
    if r.running && r.config.mode.Ws? {
      var r' := r.(connected := false, stopRequested := true);
      FailAllSucceedsNone(r', order);
      CloseExtends(r, order);
    }
    hide Inv, FailAll;
  }

  lemma WorkersEndForCause(r: Run, t: Turn)
    requires EndsForCause(r) && Enabled(r, t) && (t.Work? || t.Answer? || t.Wake? || t.AllDone?)
    ensures EndsForCause(Next(r, t)) && Next(r, t).stopRequested == r.stopRequested
  {
    if t.AllDone? { assert r.workers[0].Exited?; }
    hide LoopPass, FailAll, Crew, SettlePending, Started;
  }

  lemma TurnEndsForCause(r: Run, t: Turn)
    requires Inv(r) && EndsForCause(r) && Enabled(r, t) && !Restarts(r, t)
    ensures EndsForCause(Next(r, t))
    ensures Next(r, t).stopRequested ==> r.stopRequested || t.Stop? || t.Close?
  {
    hide LoopPass, FailAll, Crew, WorkerNext, WorkerAnswered, Inv, Distinct;
    match t
    case Pass(clock, random, sent) => PassEndsForCause(r, clock, random, sent);
    case Close(order) => CloseEndsForCause(r, order);
    case Work(_) => WorkersEndForCause(r, t);
    case Answer(_, _) => WorkersEndForCause(r, t);
    case Wake(_) => WorkersEndForCause(r, t);
    case AllDone => WorkersEndForCause(r, t);
    case _ =>
  }

  lemma {:induction false} RunEndsForCause(r: Run, ts: seq<Turn>)
    requires Inv(r) && EndsForCause(r) && Runs(r, ts) && OneRun(r, ts)
    ensures EndsForCause(Exec(r, ts)) && Inv(Exec(r, ts))
    ensures Exec(r, ts).stopRequested ==> r.stopRequested || exists t :: t in ts && (t.Stop? || t.Close?)
    decreases |ts|
  {
    if ts != [] {
      TurnEndsForCause(r, ts[0]);
      TurnKeepsInv(r, ts[0]);
      hide Inv, Next, Enabled, Restarts, EndsForCause;
      RunEndsForCause(Next(r, ts[0]), ts[1..]);
      assert ts == [ts[0]] + ts[1..];
    }
  }

  lemma NewRunEndsForCause(r: Run, c: Config)
    requires Inv(r) && Accepted(c) && Restarts(r, Start(c))
    ensures var r' := Next(r, Start(c)); EndsForCause(r') && Inv(r') && !r'.stopRequested && r'.success == 0 && r'.config == c
  {
    TurnKeepsInv(r, Start(c));
    assert c.mode.Http? ==> |Crew(c)| > 0;
    hide Inv;
  }

  lemma {:induction false} ConfigKept(r: Run, ts: seq<Turn>)
    requires Inv(r) && Runs(r, ts) && OneRun(r, ts)
    ensures Exec(r, ts).config == r.config
    decreases |ts|
  {
    if ts != [] {
      ConfigStays(r, ts[0]);
      TurnKeepsInv(r, ts[0]);
      hide Inv, Next, Enabled, Restarts;
      ConfigKept(Next(r, ts[0]), ts[1..]);
    }
  }

  /** A run that has ended, and that nobody stopped and no closing socket cut short, has attempted and settled exactly its
      total; its successes are exactly the confirmations, all others failures. */
  lemma UnstoppedRunIsComplete(r: Run, c: Config, ts: seq<Turn>)
    requires Reached(r) && Accepted(c) && Restarts(r, Start(c))
    requires Runs(Next(r, Start(c)), ts) && OneRun(Next(r, Start(c)), ts) && !Exec(Next(r, Start(c)), ts).running
    requires forall t :: t in ts ==> !t.Stop? && !t.Close?
    ensures var end := Exec(Next(r, Start(c)), ts);
      && end.completed == c.total && (forall i: nat :: i in end.settled <==> i < c.total)
      && end.success == Confirmed(Next(r, Start(c)), ts) && end.failed == c.total - end.success
  {
    ReachedInv(r);
    NewRunEndsForCause(r, c);
    hide *;
    CompleteFrom(Next(r, Start(c)), c, ts);
  }

  lemma CompleteFrom(r: Run, c: Config, ts: seq<Turn>)
    requires Inv(r) && EndsForCause(r) && !r.stopRequested && r.success == 0 && r.config == c
    requires Runs(r, ts) && OneRun(r, ts) && !Exec(r, ts).running && forall t :: t in ts ==> !t.Stop? && !t.Close?
    ensures var end := Exec(r, ts);
      && end.completed == c.total && (forall i: nat :: i in end.settled <==> i < c.total)
      && end.success == Confirmed(r, ts) && end.failed == c.total - end.success
  {
    RunEndsForCause(r, ts);
    SuccessesAreConfirmed(r, ts);
    ConfigKept(r, ts);
    hide *;
    Finished(Exec(r, ts));
  }

  lemma Finished(r: Run)
    requires Inv(r) && EndsForCause(r) && !r.running && !r.stopRequested
    ensures r.completed == r.config.total && r.success + r.failed == r.completed
    ensures forall i: nat :: i in r.settled <==> i < r.config.total
  {
    hide Awaiting, Armed, Manned;
  }
}
