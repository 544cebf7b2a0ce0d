/** The load tester of the browser console, as turns of an event loop: what the page does between two awaits. Turns
    come in any order: acknowledgements, timers, the socket closing, the stop button, workers and the sending loop. */
module LoadTest {
  import opened Text
  import opened Domain

  datatype Mode = Http | Ws

  datatype Config = Config(mode: Mode, total: nat, concurrency: nat, delayMs: nat, prefix: string)

  /** The ranges the form accepts. */
  predicate Accepted(c: Config) {
    1 <= c.total <= 10000 && 1 <= c.concurrency <= 200 && c.delayMs <= 10000 && c.prefix != ""
  }

  /** Where the sending loop of WebSocket mode goes on. */
  datatype Loop = Outer | Inner

  datatype Worker = Ready | Fetching(index: nat) | Sleeping | Exited

  /** A message waiting for its acknowledgement; `clock` and `random` are what its id was made from. */
  datatype Pending = Pending(index: nat, timer: nat, clock: nat, random: nat)

  /** An armed timer, with what its callback closes over. */
  datatype Timer = Timer(id: string, index: nat)

  /** How an attempt is settled. */
  datatype Cause = Acked | TimedOut | SendFailed | Disconnected | Answered | Rejected

  predicate Good(c: Cause) { c.Acked? || c.Answered? }

  datatype Run = Run(
    config: Config,
    running: bool,
    stopRequested: bool,
    connected: bool,
    nextIndex: nat,
    completed: nat,
    success: nat,
    failed: nat,
    inFlight: nat,
    wsPending: map<string, Pending>,
    timers: map<nat, Timer>,      // every armed timer of the page, of whatever run
    nextTimer: nat,
    loop: Loop,
    workers: seq<Worker>,
    open: set<nat>,               // history: indices handed out and not settled
    settled: map<nat, Cause>)     // history: how each index was settled last

  /** The client message id: prefix, clock, index and a random number, joined by dashes. */
  function ClientId(prefix: string, clock: nat, index: nat, random: nat): string {
    prefix + ['-'] + (Decimal(clock) + ['-'] + (Decimal(index) + ['-'] + Decimal(random)))
  }

  /** Within one run, ids of different indices differ, whatever the clock and the random numbers. */
  lemma ClientIdsDiffer(prefix: string, clock: nat, index: nat, random: nat, clock': nat, index': nat, random': nat)
    requires index != index'
    ensures ClientId(prefix, clock, index, random) != ClientId(prefix, clock', index', random')
  {
    if ClientId(prefix, clock, index, random) == ClientId(prefix, clock', index', random') {
      var x, y := Decimal(index) + ['-'] + Decimal(random), Decimal(index') + ['-'] + Decimal(random');
      var a, b := Decimal(clock) + ['-'] + x, Decimal(clock') + ['-'] + y;
      assert (prefix + ['-'] + a)[|prefix| + 1..] == a && (prefix + ['-'] + b)[|prefix| + 1..] == b;
      DecimalRoundTrip(clock); DecimalRoundTrip(clock'); DecimalRoundTrip(index); DecimalRoundTrip(index');
      SplitUnique(Decimal(clock), x, Decimal(clock'), y, '-');
      SplitUnique(Decimal(index), Decimal(random), Decimal(index'), Decimal(random'), '-');
      DecimalInjective(index, index');
    }
  }

  // ----- Pieces of turns -----

  /** Records a success or a failure, then takes the attempt out of flight. */
  function Settle(r: Run, index: nat, cause: Cause): Run {
    r.(completed := r.completed + 1,
       success := if Good(cause) then r.success + 1 else r.success,
       failed := if Good(cause) then r.failed else r.failed + 1,
       inFlight := if r.inFlight > 0 then r.inFlight - 1 else 0,
       open := r.open - {index}, settled := r.settled[index := cause])
  }

  /** Takes the next index and puts it in flight. */
  function Take(r: Run): Run {
    r.(nextIndex := r.nextIndex + 1, inFlight := r.inFlight + 1, open := r.open + {r.nextIndex})
  }

  /** Forgets a pending acknowledgement and clears its timer. */
  function Forget(r: Run, id: string): Run
    requires id in r.wsPending
  {
    r.(timers := r.timers - {r.wsPending[id].timer}, wsPending := r.wsPending - {id})
  }

  /** Adds a pending acknowledgement and arms its timer. */
  function Await(r: Run, index: nat, clock: nat, random: nat): Run {
    var id := ClientId(r.config.prefix, clock, index, random);
    r.(timers := r.timers[r.nextTimer := Timer(id, index)], nextTimer := r.nextTimer + 1,
       wsPending := r.wsPending[id := Pending(index, r.nextTimer, clock, random)])
  }

  function SettlePending(r: Run, id: string, cause: Cause): Run
    requires id in r.wsPending
  {
    Settle(Forget(r, id), r.wsPending[id].index, cause)
  }

  /** Sends the next message; a frame is lost when the socket is not open or refuses it. */
  function Dispatch(r: Run, clock: nat, random: nat, sent: bool): Run {
    var r' := Await(Take(r), r.nextIndex, clock, random);
    if sent && r.connected then r'
    else SettlePending(r', ClientId(r.config.prefix, clock, r.nextIndex, random), SendFailed)
  }

  function FailAll(r: Run, ids: seq<string>): Run
    requires Distinct(ids) && forall id :: id in ids ==> id in r.wsPending
    decreases |ids|
  {
    if ids == [] then r else
      assert forall id :: id in ids[1..] ==> id in ids && id != ids[0];
      FailAll(SettlePending(r, ids[0], Disconnected), ids[1..])
  }

  predicate MayDispatch(r: Run) {
    !r.stopRequested && r.nextIndex < r.config.total && r.inFlight < r.config.concurrency
  }

  /** One pass of the sending loop, up to its next test. */
  function LoopPass(r: Run, clock: nat, random: nat, sent: bool): Run {
    if r.loop.Outer? then
      if r.stopRequested && r.inFlight == 0 then r.(running := false) else r.(loop := Inner)
    else if MayDispatch(r) then Dispatch(r, clock, random, sent)
    else if r.nextIndex >= r.config.total && r.inFlight == 0 then r.(running := false)
    else r.(loop := Outer)
  }

  /** A worker between two requests: it stops, or takes the next index. */
  function WorkerNext(r: Run, w: nat): Run
    requires w < |r.workers|
  {
    if r.stopRequested || r.nextIndex >= r.config.total then r.(workers := r.workers[w := Exited])
    else Take(r).(workers := r.workers[w := Fetching(r.nextIndex)])
  }

  function WorkerAnswered(r: Run, w: nat, ok: bool): Run
    requires w < |r.workers| && r.workers[w].Fetching?
  {
    Settle(r, r.workers[w].index, if ok then Answered else Rejected)
      .(workers := r.workers[w := if r.config.delayMs > 0 && !r.stopRequested then Sleeping else Ready])
  }

  /** The workers of a new run. */
  function Crew(c: Config): seq<Worker> {
    if c.mode.Http? then seq(if c.total < c.concurrency then c.total else c.concurrency, _ => Ready) else []
  }

  /** The books of a new run; the socket and the armed timers are the page's. */
  function NewRun(r: Run, c: Config): Run {
    Run(c, true, false, r.connected, 0, 0, 0, 0, 0, map[], r.timers, r.nextTimer, Outer, Crew(c), {}, map[])
  }

  function Started(r: Run, c: Config): Run {
    if r.running || (c.mode.Ws? && !r.connected) then r else NewRun(r, c)
  }

  // ----- Turns -----

  datatype Turn =
    | Start(config: Config)
    | Pass(clock: nat, random: nat, sent: bool)
    | Ack(id: string)
    | Fire(timer: nat)
    | Open
    | Close(order: seq<string>)
    | Stop
    | Work(w: nat)
    | Answer(w: nat, ok: bool)
    | Wake(w: nat)
    | AllDone

  ghost predicate Enabled(r: Run, t: Turn) {
    match t
    case Start(c) => Accepted(c)
    case Pass(_, _, _) => r.running && r.config.mode.Ws?
    case Ack(_) => true
    case Fire(timer) => timer in r.timers
    case Open => true
    case Close(order) => Distinct(order) && forall id :: id in order <==> id in r.wsPending
    case Stop => true
    case Work(w) => w < |r.workers| && r.workers[w].Ready?
    case Answer(w, _) => w < |r.workers| && r.workers[w].Fetching?
    case Wake(w) => w < |r.workers| && r.workers[w].Sleeping?
    case AllDone => r.running && r.config.mode.Http? && AllExited(r.workers)
  }

  ghost function Next(r: Run, t: Turn): Run
    requires Enabled(r, t)
  {
    match t
    case Start(c) => Started(r, c)
    case Pass(clock, random, sent) => LoopPass(r, clock, random, sent)
    case Ack(id) => if id in r.wsPending then SettlePending(r, id, Acked) else r
    case Fire(timer) =>
      var r' := r.(timers := r.timers - {timer});
      var id := r.timers[timer].id;
      if id in r.wsPending then Settle(Forget(r', id), r.timers[timer].index, TimedOut) else r'
    case Open => r.(connected := true)
    case Close(order) =>
      var r' := r.(connected := false);
      if r.running && r.config.mode.Ws? then FailAll(r'.(stopRequested := true), order) else r'
    case Stop => if r.running then r.(stopRequested := true) else r
    case Work(w) => WorkerNext(r, w)
    case Answer(w, ok) => WorkerAnswered(r, w, ok)
    case Wake(w) => r.(workers := r.workers[w := Ready])
    case AllDone => r.(running := false)
  }

  const IDLE_CONFIG := Config(Http, 1, 1, 0, "p")

  const FRESH := Run(IDLE_CONFIG, false, false, false, 0, 0, 0, 0, 0, map[], map[], 0, Outer, [], {}, map[])

  // ----- The invariant -----

  /** The counters balance, and they count the histories. */
  ghost predicate Counted(r: Run) {
    && r.nextIndex == r.success + r.failed + r.inFlight
    && r.completed == r.success + r.failed
    && r.inFlight == |r.open| && r.completed == |r.settled| && r.success == |Successes(r.settled)|
  }

  ghost function Successes(settled: map<nat, Cause>): set<nat> {
    set i | i in settled && Good(settled[i])
  }

  /** Every index handed out is either open or settled, never both. */
  ghost predicate Shared(nextIndex: nat, open: set<nat>, settled: map<nat, Cause>) {
    forall i: nat :: (i in open || i in settled <==> i < nextIndex) && !(i in open && i in settled)
  }

  /** In WebSocket mode the open indices are exactly those awaiting an acknowledgement, one id each. */
  ghost predicate Awaiting(c: Config, open: set<nat>, pending: map<string, Pending>) {
    && (forall id :: id in pending ==>
          pending[id].index in open && id == ClientId(c.prefix, pending[id].clock, pending[id].index, pending[id].random))
    && (forall x, y :: x in pending && y in pending && pending[x].index == pending[y].index ==> x == y)
    && (c.mode.Ws? ==> forall i :: i in open ==> exists id :: id in pending && pending[id].index == i)
    && (c.mode.Http? ==> pending == map[])
  }

  /** Every pending acknowledgement has its own armed timer, and there are no other timers. */
  ghost predicate Armed(pending: map<string, Pending>, timers: map<nat, Timer>, nextTimer: nat) {
    && (forall id :: id in pending ==>
          pending[id].timer in timers && timers[pending[id].timer] == Timer(id, pending[id].index))
    && (forall t :: t in timers ==>
          t < nextTimer && timers[t].id in pending && pending[timers[t].id].timer == t)
  }

  ghost function Fetches(ws: seq<Worker>): set<nat> {
    set w | 0 <= w < |ws| && ws[w].Fetching? :: ws[w].index
  }

  predicate AllExited(ws: seq<Worker>) {
    forall w :: 0 <= w < |ws| ==> ws[w].Exited?
  }

  /** In HTTP mode the open indices are exactly those being fetched, one worker each. */
  ghost predicate Manned(c: Config, open: set<nat>, workers: seq<Worker>) {
    && (forall v, w :: 0 <= v < w < |workers| && workers[v].Fetching? && workers[w].Fetching? ==>
          workers[v].index != workers[w].index)
    && (c.mode.Http? ==> open == Fetches(workers) && |workers| <= c.concurrency)
    && (c.mode.Ws? ==> workers == [])
  }

  ghost predicate Inv(r: Run) {
    && Accepted(r.config) && Counted(r)
    && Shared(r.nextIndex, r.open, r.settled) && Awaiting(r.config, r.open, r.wsPending)
    && Armed(r.wsPending, r.timers, r.nextTimer) && Manned(r.config, r.open, r.workers)
    && r.nextIndex <= r.config.total && r.inFlight <= r.config.concurrency
    && (!r.running ==> r.open == {} && AllExited(r.workers))
  }

  lemma AwaitedIsOpen(c: Config, open: set<nat>, pending: map<string, Pending>, id: string)
    requires Awaiting(c, open, pending) && id in pending
    ensures pending[id].index in open && c.mode.Ws?
  {
    assert pending[id].index in open;
  }

  lemma ArmedIsAwaited(pending: map<string, Pending>, timers: map<nat, Timer>, nextTimer: nat, t: nat)
    requires Armed(pending, timers, nextTimer) && t in timers
    ensures pending != map[]
  {
    assert timers[t].id in pending;
  }

  /** With nothing in flight nothing is awaited and no timer is armed. */
  lemma Emptied(r: Run)
    requires Inv(r) && r.inFlight == 0
    ensures r.open == {} && r.wsPending == map[] && r.timers == map[]
  {
    hide Awaiting, Armed;
    assert r.open == {};
    forall id ensures id !in r.wsPending {
      if id in r.wsPending { AwaitedIsOpen(r.config, r.open, r.wsPending, id); }
    }
    assert r.wsPending == map[];
    forall t ensures t !in r.timers {
      if t in r.timers { ArmedIsAwaited(r.wsPending, r.timers, r.nextTimer, t); }
    }
  }

  // ----- Each turn keeps it -----

  lemma SettledSizes(settled: map<nat, Cause>, index: nat, cause: Cause)
    requires index !in settled
    ensures var settled' := settled[index := cause];
      && |settled'| == |settled| + 1
      && |Successes(settled')| == |Successes(settled)| + if Good(cause) then 1 else 0
  {
    var settled' := settled[index := cause];
    assert Successes(settled') == if Good(cause) then Successes(settled) + {index} else Successes(settled);
    assert settled'.Keys == settled.Keys + {index};
    assert |settled'| == |settled'.Keys| && |settled| == |settled.Keys|;
  }

  lemma SettleShares(nextIndex: nat, open: set<nat>, settled: map<nat, Cause>, index: nat, cause: Cause)
    requires Shared(nextIndex, open, settled) && index in open
    ensures Shared(nextIndex, open - {index}, settled[index := cause])
    ensures index !in settled && |open - {index}| == |open| - 1
  {
  }

  lemma SettleCounts(r: Run, index: nat, cause: Cause)
    requires Counted(r) && Shared(r.nextIndex, r.open, r.settled) && index in r.open
    ensures var r' := Settle(r, index, cause); Counted(r') && Shared(r'.nextIndex, r'.open, r'.settled) && r'.inFlight == r.inFlight - 1
  {
    SettleShares(r.nextIndex, r.open, r.settled, index, cause);
    SettledSizes(r.settled, index, cause);
    hide Shared, Successes, Good;
  }

  lemma SettlePendingArmed(r: Run, id: string, cause: Cause)
    requires Armed(r.wsPending, r.timers, r.nextTimer) && id in r.wsPending
    ensures var r' := SettlePending(r, id, cause); Armed(r'.wsPending, r'.timers, r'.nextTimer)
  {
  }

  lemma SettlePendingAwaiting(r: Run, id: string, cause: Cause)
    requires Awaiting(r.config, r.open, r.wsPending) && id in r.wsPending
    ensures var r' := SettlePending(r, id, cause); Awaiting(r'.config, r'.open, r'.wsPending)
  {
    var r' := SettlePending(r, id, cause);
    if r.config.mode.Ws? {
      forall i | i in r'.open ensures exists x :: x in r'.wsPending && r'.wsPending[x].index == i {
        var x :| x in r.wsPending && r.wsPending[x].index == i;
        assert x in r'.wsPending && r'.wsPending[x].index == i;
      }
    }
  }

  lemma SettlePendingKeeps(r: Run, id: string, cause: Cause)
    requires Inv(r) && id in r.wsPending
    ensures Inv(SettlePending(r, id, cause)) && SettlePending(r, id, cause).inFlight == r.inFlight - 1
  {
    hide Counted, Shared, Awaiting, Armed, Manned;
    AwaitedIsOpen(r.config, r.open, r.wsPending, id);
    SettlePendingArmed(r, id, cause);
    SettlePendingAwaiting(r, id, cause);
    ForgetCounts(r, id);
    SettleCounts(Forget(r, id), r.wsPending[id].index, cause);
    SocketNeedsNoWorker(r.config, r.open, SettlePending(r, id, cause).open, r.workers);
  }

  lemma ForgetCounts(r: Run, id: string)
    requires Counted(r) && id in r.wsPending
    ensures Counted(Forget(r, id))
  {
  }

  lemma {:induction false} FailAllKeeps(r: Run, ids: seq<string>)
    requires Inv(r) && Distinct(ids) && forall id :: id in ids ==> id in r.wsPending
    ensures Inv(FailAll(r, ids)) && FailAll(r, ids).inFlight == r.inFlight - |ids|
    decreases |ids|
  {
    hide Inv;
    if ids != [] {
      SettlePendingKeeps(r, ids[0], Disconnected);
      assert forall id :: id in ids[1..] ==> id in ids && id != ids[0];
      FailAllKeeps(SettlePending(r, ids[0], Disconnected), ids[1..]);
    }
  }

  lemma TakeShares(nextIndex: nat, open: set<nat>, settled: map<nat, Cause>)
    requires Shared(nextIndex, open, settled)
    ensures Shared(nextIndex + 1, open + {nextIndex}, settled) && nextIndex !in open && |open + {nextIndex}| == |open| + 1
  {
    assert nextIndex !in open;
  }

  lemma TakeCounts(r: Run)
    requires Counted(r) && Shared(r.nextIndex, r.open, r.settled)
    ensures Counted(Take(r)) && Shared(Take(r).nextIndex, Take(r).open, r.settled) && r.nextIndex !in r.open
  {
    TakeShares(r.nextIndex, r.open, r.settled);
    hide Shared, Successes;
  }

  /** The id of a new message is not pending yet, so awaiting it overwrites nothing. */
  lemma FreshId(r: Run, clock: nat, random: nat)
    requires Shared(r.nextIndex, r.open, r.settled) && Awaiting(r.config, r.open, r.wsPending)
    ensures ClientId(r.config.prefix, clock, r.nextIndex, random) !in r.wsPending
  {
    var id := ClientId(r.config.prefix, clock, r.nextIndex, random);
    if id in r.wsPending {
      var p := r.wsPending[id];
      assert p.index in r.open;
      ClientIdsDiffer(r.config.prefix, clock, r.nextIndex, random, p.clock, p.index, p.random);
    }
  }

  lemma AwaitKeepsAwaiting(r: Run, clock: nat, random: nat)
    requires Shared(r.nextIndex, r.open, r.settled) && Awaiting(r.config, r.open, r.wsPending) && r.config.mode.Ws?
    ensures var r' := Await(Take(r), r.nextIndex, clock, random); Awaiting(r'.config, r'.open, r'.wsPending)
  {
    FreshId(r, clock, random);
    var id := ClientId(r.config.prefix, clock, r.nextIndex, random);
    hide ClientId;
    var r' := Await(Take(r), r.nextIndex, clock, random);
    assert r.nextIndex !in r.open;
    assert id in r'.wsPending && r'.wsPending[id].index == r.nextIndex;
    forall i | i in r.open ensures exists x :: x in r'.wsPending && r'.wsPending[x].index == i {
      var x :| x in r.wsPending && r.wsPending[x].index == i;
      assert x in r'.wsPending && r'.wsPending[x].index == i;
    }
  }

  lemma AwaitKeepsArmed(r: Run, clock: nat, random: nat)
    requires Shared(r.nextIndex, r.open, r.settled) && Awaiting(r.config, r.open, r.wsPending)
    requires Armed(r.wsPending, r.timers, r.nextTimer)
    ensures var r' := Await(Take(r), r.nextIndex, clock, random); Armed(r'.wsPending, r'.timers, r'.nextTimer)
  {
    FreshId(r, clock, random);
    hide ClientId, Awaiting, Shared;
  }

  lemma SentCounts(r: Run, clock: nat, random: nat)
    requires Counted(r) && Shared(r.nextIndex, r.open, r.settled)
    ensures Counted(Await(Take(r), r.nextIndex, clock, random))
  {
    TakeCounts(r);
    hide Shared, ClientId, Successes;
  }

  lemma SocketNeedsNoWorker(c: Config, open: set<nat>, open': set<nat>, workers: seq<Worker>)
    requires c.mode.Ws? && Manned(c, open, workers)
    ensures Manned(c, open', workers)
  {
  }

  lemma SentKeeps(r: Run, clock: nat, random: nat)
    requires Inv(r) && r.running && r.config.mode.Ws? && MayDispatch(r)
    ensures Inv(Await(Take(r), r.nextIndex, clock, random))
  {
    hide Counted, Awaiting, Armed, Shared, ClientId, Manned;
    SocketNeedsNoWorker(r.config, r.open, Take(r).open, r.workers);
    TakeCounts(r);
    SentCounts(r, clock, random);
    AwaitKeepsAwaiting(r, clock, random);
    AwaitKeepsArmed(r, clock, random);
  }

  lemma DispatchKeeps(r: Run, clock: nat, random: nat, sent: bool)
    requires Inv(r) && r.running && r.config.mode.Ws? && MayDispatch(r)
    ensures Inv(Dispatch(r, clock, random, sent))
  {
    hide Inv, ClientId;
    SentKeeps(r, clock, random);
    var id := ClientId(r.config.prefix, clock, r.nextIndex, random);
    SettlePendingKeeps(Await(Take(r), r.nextIndex, clock, random), id, SendFailed);
  }

  lemma {:induction false} FewFetches(ws: seq<Worker>)
    ensures |Fetches(ws)| <= |ws|
  {
    if ws == [] {
      assert Fetches(ws) == {};
    } else {
      var rest, last := ws[..|ws| - 1], ws[|ws| - 1];
      FewFetches(rest);
      assert Fetches(ws) == Fetches(rest) + (if last.Fetching? then {last.index} else {}) by {
        assert forall w :: 0 <= w < |rest| ==> ws[w] == rest[w];
        forall i | i in Fetches(rest) ensures i in Fetches(ws) {
          var w :| 0 <= w < |rest| && rest[w].Fetching? && rest[w].index == i;
          assert ws[w].Fetching? && ws[w].index == i;
        }
      }
    }
  }

  lemma FetchesUpdated(ws: seq<Worker>, w: nat, x: Worker)
    requires w < |ws| && forall v :: 0 <= v < |ws| && v != w && ws[v].Fetching? && ws[w].Fetching? ==> ws[v].index != ws[w].index
    ensures Fetches(ws[w := x])
         == Fetches(ws) - (if ws[w].Fetching? then {ws[w].index} else {}) + (if x.Fetching? then {x.index} else {})
  {
    var ws' := ws[w := x];
    forall i | i in Fetches(ws) && !(ws[w].Fetching? && i == ws[w].index) ensures i in Fetches(ws') {
      var v :| 0 <= v < |ws| && ws[v].Fetching? && ws[v].index == i;
      assert ws'[v].Fetching? && ws'[v].index == i;
    }
    if x.Fetching? { assert ws'[w].Fetching? && ws'[w].index == x.index; }
  }

  lemma WorkKeepsManned(r: Run, w: nat)
    requires Shared(r.nextIndex, r.open, r.settled) && Manned(r.config, r.open, r.workers)
    requires r.config.mode.Http? && w < |r.workers| && r.workers[w].Ready?
    ensures var r' := WorkerNext(r, w); Manned(r'.config, r'.open, r'.workers)
  {
    hide Shared;
    var r' := WorkerNext(r, w);
    FetchesUpdated(r.workers, w, r'.workers[w]);
    forall v | 0 <= v < |r.workers| && r.workers[v].Fetching? ensures r.workers[v].index != r.nextIndex {
      assert r.workers[v].index in Fetches(r.workers);
      NotYetOpen(r);
    }
  }

  lemma NotYetOpen(r: Run)
    requires Shared(r.nextIndex, r.open, r.settled)
    ensures r.nextIndex !in r.open
  {
  }

  lemma WorkKeeps(r: Run, w: nat)
    requires Inv(r) && w < |r.workers| && r.workers[w].Ready?
    ensures Inv(WorkerNext(r, w))
  {
    assert r.config.mode.Http?;
    var r' := WorkerNext(r, w);
    WorkKeepsManned(r, w);
    TakeCounts(r);
    FewFetches(r'.workers);
    WorkCounts(r, w);
    IdleAwaits(r.config, r.open, r'.open, r.wsPending);
    FetchesBound(r');
    hide Counted, Shared, Awaiting, Armed, Manned;
  }

  lemma WorkCounts(r: Run, w: nat)
    requires Counted(Take(r)) && Counted(r) && w < |r.workers|
    ensures Counted(WorkerNext(r, w)) && WorkerNext(r, w).inFlight == |WorkerNext(r, w).open|
  {
  }

  /** HTTP mode awaits no acknowledgement, whatever is open. */
  lemma IdleAwaits(c: Config, open: set<nat>, open': set<nat>, pending: map<string, Pending>)
    requires c.mode.Http? && Awaiting(c, open, pending)
    ensures Awaiting(c, open', pending)
  {
  }

  lemma FetchesBound(r: Run)
    requires r.config.mode.Http? && Manned(r.config, r.open, r.workers)
    requires |Fetches(r.workers)| <= |r.workers|
    ensures |r.open| <= r.config.concurrency
  {
  }

  lemma AnswerKeeps(r: Run, w: nat, ok: bool)
    requires Inv(r) && w < |r.workers| && r.workers[w].Fetching?
    ensures Inv(WorkerAnswered(r, w, ok)) && r.workers[w].index in r.open
    ensures WorkerAnswered(r, w, ok).inFlight == r.inFlight - 1
  {
    assert r.config.mode.Http?;
    var r' := WorkerAnswered(r, w, ok);
    assert r.workers[w].index in Fetches(r.workers);
    FetchesUpdated(r.workers, w, r'.workers[w]);
    SettleCounts(r, r.workers[w].index, if ok then Answered else Rejected);
    assert Manned(r'.config, r'.open, r'.workers);
  }

  /** A timer that fires always finds its own message still pending. */
  lemma FireSettles(r: Run, timer: nat)
    requires Armed(r.wsPending, r.timers, r.nextTimer) && timer in r.timers
    ensures r.timers[timer].id in r.wsPending
    ensures Next(r, Fire(timer)) == SettlePending(r, r.timers[timer].id, TimedOut)
  {
    var id := r.timers[timer].id;
    assert id in r.wsPending && r.wsPending[id].timer == timer && r.timers[timer] == Timer(id, r.wsPending[id].index);
    assert r.timers - {timer} - {timer} == r.timers - {timer};
  }

  lemma FireKeeps(r: Run, timer: nat)
    requires Inv(r) && timer in r.timers
    ensures Inv(Next(r, Fire(timer))) && Next(r, Fire(timer)).inFlight == r.inFlight - 1
  {
    FireSettles(r, timer);
    hide Inv;
    SettlePendingKeeps(r, r.timers[timer].id, TimedOut);
  }

  lemma StartKeeps(r: Run, c: Config)
    requires Inv(r) && Accepted(c)
    ensures Inv(Started(r, c))
  {
    if !r.running {
      Emptied(r);
      assert Fetches(Started(r, c).workers) == {} || !c.mode.Http?;
    }
  }

  lemma IdlePassKeeps(r: Run, clock: nat, random: nat, sent: bool)
    requires Inv(r) && r.running && r.config.mode.Ws? && !(r.loop.Inner? && MayDispatch(r))
    ensures Inv(LoopPass(r, clock, random, sent))
  {
    assert r.workers == [];
    CountedSame(r, LoopPass(r, clock, random, sent));
    assert r.inFlight == |r.open|;
    hide Shared, Awaiting, Armed, Manned, Dispatch, Counted;
  }

  lemma PassKeeps(r: Run, clock: nat, random: nat, sent: bool)
    requires Inv(r) && r.running && r.config.mode.Ws?
    ensures Inv(LoopPass(r, clock, random, sent))
  {
    hide Inv;
    if r.loop.Inner? && MayDispatch(r) { DispatchKeeps(r, clock, random, sent); } else { IdlePassKeeps(r, clock, random, sent); }
  }

  lemma CloseKeeps(r: Run, order: seq<string>)
    requires Inv(r) && Enabled(r, Close(order))
    ensures Inv(Next(r, Close(order)))
  {
    var r' := r.(connected := false, stopRequested := true);
    hide Shared, Awaiting, Armed, Manned;
    if r.running && r.config.mode.Ws? { FailAllKeeps(r', order); }
  }

  /** Turns that leave the books alone. */
  lemma QuietKeeps(r: Run, t: Turn)
    requires Inv(r) && Enabled(r, t) && (t.Open? || t.Stop?)
    ensures Inv(Next(r, t))
  {
    hide Shared, Awaiting, Armed, Manned;
  }

  lemma WakeKeeps(r: Run, w: nat)
    requires Inv(r) && w < |r.workers| && r.workers[w].Sleeping?
    ensures Inv(Next(r, Wake(w)))
  {
    hide Shared, Awaiting, Armed, Counted;
    FetchesUpdated(r.workers, w, Ready);
    assert Counted(r) == Counted(Next(r, Wake(w))) by { CountedSame(r, Next(r, Wake(w))); }
  }

  lemma CountedSame(r: Run, r': Run)
    requires r' == r.(workers := r'.workers, running := r'.running, loop := r'.loop)
    ensures Counted(r) == Counted(r')
  {
  }

  lemma AllDoneKeeps(r: Run)
    requires Inv(r) && Enabled(r, AllDone)
    ensures Inv(Next(r, AllDone)) && r.inFlight == 0
  {
    hide Shared, Awaiting, Armed;
    assert Fetches(r.workers) == {};
  }

  lemma TurnKeepsInv(r: Run, t: Turn)
    requires Inv(r) && Enabled(r, t)
    ensures Inv(Next(r, t))
  {
    hide Inv;
    match t
    case Start(c) => StartKeeps(r, c);
    case Pass(clock, random, sent) => PassKeeps(r, clock, random, sent);
    case Ack(id) => if id in r.wsPending { SettlePendingKeeps(r, id, Acked); }
    case Fire(timer) => FireKeeps(r, timer);
    case Close(order) => CloseKeeps(r, order);
    case Work(w) => WorkKeeps(r, w);
    case Answer(w, ok) => AnswerKeeps(r, w, ok);
    case Wake(w) => WakeKeeps(r, w);
    case AllDone => AllDoneKeeps(r);
    case _ => QuietKeeps(r, t);
  }

  // ----- Runs -----

  ghost predicate Runs(r: Run, ts: seq<Turn>)
    decreases |ts|
  {
    ts == [] || (Enabled(r, ts[0]) && Runs(Next(r, ts[0]), ts[1..]))
  }

  ghost function Exec(r: Run, ts: seq<Turn>): Run
    requires Runs(r, ts)
    decreases |ts|
  {
    if ts == [] then r else Exec(Next(r, ts[0]), ts[1..])
  }

  lemma FreshInv()
    ensures Inv(FRESH)
  {
    assert Fetches([]) == {};
    assert Successes(map[]) == {};
  }

  lemma {:induction false} RunKeepsInv(r: Run, ts: seq<Turn>)
    requires Inv(r) && Runs(r, ts)
    ensures Inv(Exec(r, ts))
    decreases |ts|
  {
    hide Inv;
    if ts != [] {
      TurnKeepsInv(r, ts[0]);
      RunKeepsInv(Next(r, ts[0]), ts[1..]);
    }
  }

  /** A state the page can be in between two turns. */
  ghost predicate Reached(r: Run) {
    exists ts :: Runs(FRESH, ts) && r == Exec(FRESH, ts)
  }

  lemma ReachedInv(r: Run)
    requires Reached(r)
    ensures Inv(r)
  {
    FreshInv();
    hide Inv, Runs, Exec;
    var ts :| Runs(FRESH, ts) && r == Exec(FRESH, ts);
    RunKeepsInv(FRESH, ts);
  }

  /** Between any two turns of any session: every index handed out is settled or in flight, and never more are in
      flight than the configured concurrency. */
  lemma BooksBalance(r: Run)
    requires Reached(r)
    ensures r.nextIndex == r.success + r.failed + r.inFlight <= r.config.total
    ensures r.inFlight == |r.open| <= r.config.concurrency && r.completed == |r.settled| == r.success + r.failed
    ensures forall i: nat :: (i in r.open || i in r.settled <==> i < r.nextIndex) && !(i in r.open && i in r.settled)
  {
    ReachedInv(r);
    hide Reached, Awaiting, Armed, Manned;
  }

  /** Between runs nothing is in flight, nothing is awaited and no timer is armed: no late timer, acknowledgement
      or answer of one run can reach the books of the next. */
  lemma NothingCrossesRuns(r: Run)
    requires Reached(r) && !r.running
    ensures r.inFlight == 0 && r.open == {} && r.wsPending == map[] && r.timers == map[] && AllExited(r.workers)
    ensures r.completed == r.nextIndex
  {
    ReachedInv(r);
    hide Reached, Awaiting, Armed, Manned, Shared;
    Emptied(r);
  }

  /** Does this turn throw the books away for a new run? */
  predicate Restarts(r: Run, t: Turn) {
    t.Start? && !r.running && (t.config.mode.Ws? ==> r.connected)
  }

  ghost predicate Extends(before: map<nat, Cause>, after: map<nat, Cause>) {
    forall i :: i in before ==> i in after && after[i] == before[i]
  }

  lemma SettlePendingExtends(r: Run, id: string, cause: Cause)
    requires Inv(r) && id in r.wsPending
    ensures Extends(r.settled, SettlePending(r, id, cause).settled)
  {
    hide Armed, Manned, Counted;
    assert r.wsPending[id].index in r.open;
  }

  lemma {:induction false} FailAllExtends(r: Run, ids: seq<string>)
    requires Inv(r) && Distinct(ids) && forall id :: id in ids ==> id in r.wsPending
    ensures Extends(r.settled, FailAll(r, ids).settled)
    ensures FailAll(r, ids).nextIndex == r.nextIndex && FailAll(r, ids).config == r.config
    ensures FailAll(r, ids).completed == r.completed + |ids|
    decreases |ids|
  {
    hide Inv;
    if ids != [] {
      SettlePendingKeeps(r, ids[0], Disconnected);
      SettlePendingExtends(r, ids[0], Disconnected);
      assert forall id :: id in ids[1..] ==> id in ids && id != ids[0];
      FailAllExtends(SettlePending(r, ids[0], Disconnected), ids[1..]);
    }
  }

  lemma DispatchExtends(r: Run, clock: nat, random: nat, sent: bool)
    requires Inv(r)
    ensures Extends(r.settled, Dispatch(r, clock, random, sent).settled)
  {
    hide Awaiting, Armed, Manned, Counted;
  }

  lemma CloseExtends(r: Run, order: seq<string>)
    requires Inv(r) && Enabled(r, Close(order))
    ensures var r' := Next(r, Close(order));
            Extends(r.settled, r'.settled) && r'.nextIndex == r.nextIndex && r'.config == r.config
  {
    hide Shared, Awaiting, Armed, Manned;
    if r.running && r.config.mode.Ws? {
      FailAllExtends(r.(connected := false, stopRequested := true), order);
    }
  }

  lemma AnswerExtends(r: Run, w: nat, ok: bool)
    requires Inv(r) && w < |r.workers| && r.workers[w].Fetching?
    ensures Extends(r.settled, WorkerAnswered(r, w, ok).settled)
  {
    AnswerKeeps(r, w, ok);
    hide Counted, Awaiting, Armed, Manned;
  }

  lemma PassExtends(r: Run, clock: nat, random: nat, sent: bool)
    requires Inv(r)
    ensures Extends(r.settled, LoopPass(r, clock, random, sent).settled)
  {
    hide Inv;
    if r.loop.Inner? && MayDispatch(r) { DispatchExtends(r, clock, random, sent); }
  }

  lemma SettledCounts(r: Run)
    requires Inv(r)
    ensures r.completed == |r.settled|
  {
  }

  lemma SettledKept(r: Run, t: Turn)
    requires Inv(r) && Enabled(r, t) && !Restarts(r, t)
    ensures Extends(r.settled, Next(r, t).settled)
  {
    if t.Fire? { FireSettles(r, t.timer); }
    hide Inv, Settle, LoopPass;
    match t
    case Pass(clock, random, sent) => PassExtends(r, clock, random, sent);
    case Ack(id) => if id in r.wsPending { SettlePendingExtends(r, id, Acked); }
    case Fire(timer) => SettlePendingExtends(r, r.timers[timer].id, TimedOut);
    case Close(order) => CloseExtends(r, order);
    case Answer(w, ok) => AnswerExtends(r, w, ok);
    case _ =>
  }

  /** The counters follow the settled attempts, which one turn does not touch again. */
  lemma TurnSettlesOnce(r: Run, t: Turn)
    requires Inv(r) && Enabled(r, t) && !Restarts(r, t)
    ensures Extends(r.settled, Next(r, t).settled)
    ensures Next(r, t).completed - r.completed == |Next(r, t).settled| - |r.settled|
  {
    hide Inv, Next, Enabled, Extends;
    SettledKept(r, t);
    TurnKeepsInv(r, t);
    SettledCounts(r);
    SettledCounts(Next(r, t));
  }

  /** The turns belong to one run: no new one is started. */
  ghost predicate OneRun(r: Run, ts: seq<Turn>)
    requires Runs(r, ts)
    decreases |ts|
  {
    ts == [] || (!Restarts(r, ts[0]) && OneRun(Next(r, ts[0]), ts[1..]))
  }

  lemma ExtendsTransitive(a: map<nat, Cause>, b: map<nat, Cause>, c: map<nat, Cause>)
    requires Extends(a, b) && Extends(b, c)
    ensures Extends(a, c)
  {
  }

  /** An attempt is settled once: nothing in the rest of the run settles it again or changes how it was settled. With
      the counters equal to the number of settled indices this covers acknowledgement, timeout, failed send,
      disconnection and HTTP answers alike. */
  lemma {:induction false} SettledOnce(r: Run, ts: seq<Turn>)
    requires Inv(r) && Runs(r, ts) && OneRun(r, ts)
    ensures Extends(r.settled, Exec(r, ts).settled)
    ensures Exec(r, ts).completed - r.completed == |Exec(r, ts).settled| - |r.settled|
    decreases |ts|
  {
    if ts == [] {
    } else {
      var r' := Next(r, ts[0]);
      TurnSettlesOnce(r, ts[0]);
      TurnKeepsInv(r, ts[0]);
      hide Inv, Next, Enabled, Extends, Restarts;
      SettledOnce(r', ts[1..]);
      ExtendsTransitive(r.settled, r'.settled, Exec(r', ts[1..]).settled);
    }
  }

  // ----- Ending -----

  /** Work left: what is not dispatched counts twice, what is in flight once. */
  ghost function Left(r: Run): int {
    2 * r.config.total - r.nextIndex - r.completed
  }

  lemma LeftIsNatural(r: Run)
    requires Inv(r)
    ensures 0 <= Left(r)
  {
  }

  /** No work is added, and some is taken away if anything was dispatched or settled. */
  ghost predicate Shrinks(r: Run, r': Run) {
    Left(r') <= Left(r) && (r'.nextIndex != r.nextIndex || r'.settled != r.settled ==> Left(r') < Left(r))
  }

  lemma CloseShrinks(r: Run, order: seq<string>)
    requires Inv(r) && Enabled(r, Close(order))
    ensures Shrinks(r, Next(r, Close(order)))
  {
    if r.running && r.config.mode.Ws? {
      FailAllExtends(r.(connected := false, stopRequested := true), order);
    }
    hide Inv, Extends, Distinct, SettlePending;
  }

  lemma PassShrinks(r: Run, clock: nat, random: nat, sent: bool)
    ensures Shrinks(r, LoopPass(r, clock, random, sent))
  {
    hide ClientId, Good;
  }

  lemma FireShrinks(r: Run, timer: nat)
    requires Inv(r) && timer in r.timers
    ensures Shrinks(r, Next(r, Fire(timer)))
  {
    FireSettles(r, timer);
  }

  lemma WorkShrinks(r: Run, t: Turn)
    requires Inv(r) && Enabled(r, t) && !Restarts(r, t) && !t.Close? && !t.Pass? && !t.Fire?
    ensures Shrinks(r, Next(r, t))
  {
    hide Inv, Good, LoopPass, FailAll;
  }

  /** No turn of a run adds work, and one that dispatches or settles anything takes some away: a run makes at most
      twice its total of them. */
  lemma TurnShrinks(r: Run, t: Turn)
    requires Inv(r) && Enabled(r, t) && !Restarts(r, t)
    ensures 0 <= Left(Next(r, t)) && Shrinks(r, Next(r, t))
  {
    hide Inv, Left, LoopPass, Shrinks;
    TurnKeepsInv(r, t);
    LeftIsNatural(Next(r, t));
    match t
    case Close(order) => CloseShrinks(r, order);
    case Pass(clock, random, sent) => PassShrinks(r, clock, random, sent);
    case Fire(timer) => FireShrinks(r, timer);
    case _ => WorkShrinks(r, t);
  }

  /** Every open message of a WebSocket run has an armed timer. */
  lemma OpenIsTimed(r: Run, i: nat)
    requires Inv(r) && r.config.mode.Ws? && i in r.open
    ensures exists timer :: timer in r.timers && r.timers[timer].index == i
  {
    var id :| id in r.wsPending && r.wsPending[id].index == i;
    assert r.wsPending[id].timer in r.timers;
  }

  lemma NoTimerLeft(r: Run)
    requires Inv(r) && r.config.mode.Ws? && r.timers == map[]
    ensures r.inFlight == 0
  {
    forall i ensures i !in r.open { if i in r.open { OpenIsTimed(r, i); } }
    assert r.open == {};
  }

  /** How many passes the idle loop is away from dispatching or ending. */
  ghost function Rank(r: Run): nat {
    if r.stopRequested == r.loop.Inner? then 1 else 0
  }

  lemma IdlePass(r: Run, clock: nat, random: nat, sent: bool)
    requires Inv(r) && r.running && r.config.mode.Ws? && r.inFlight == 0
    ensures var r' := LoopPass(r, clock, random, sent);
            r'.running ==> Left(r') < Left(r) || (Left(r') == Left(r) && Rank(r') < Rank(r))
  {
    PassShrinks(r, clock, random, sent);
    hide Shared, Awaiting, Armed, Manned, Counted;
  }

  lemma StillRunning(r: Run, t: Turn)
    requires Inv(r) && r.running && r.config.mode.Ws? && Enabled(r, t) && t.Fire?
    ensures Next(r, t).running && Next(r, t).config == r.config && Left(Next(r, t)) == Left(r) - 1
  {
    FireSettles(r, t.timer);
  }

  lemma DispatchConfig(r: Run, clock: nat, random: nat, sent: bool)
    ensures Dispatch(r, clock, random, sent).config == r.config
  {
    hide ClientId, Good;
  }

  lemma PassConfig(r: Run, clock: nat, random: nat, sent: bool)
    ensures LoopPass(r, clock, random, sent).config == r.config
  {
    DispatchConfig(r, clock, random, sent);
    hide Dispatch;
  }

  ghost predicate Closer(r: Run, r': Run) {
    r'.config == r.config && (Left(r') < Left(r) || (Left(r') == Left(r) && Rank(r') < Rank(r)))
  }

  /** Some timer can fire, or the loop has something to do. */
  lemma SomeTurn(r: Run) returns (t: Turn)
    requires Inv(r) && r.running && r.config.mode.Ws?
    ensures Enabled(r, t) && (t.Fire? || t.Pass?) && (Next(r, t).running ==> Closer(r, Next(r, t)))
  {
    if r.timers != map[] {
      var timer :| timer in r.timers;
      StillRunning(r, Fire(timer));
      return Fire(timer);
    }
    NoTimerLeft(r);
    hide Inv;
    IdlePass(r, 0, 0, true);
    PassConfig(r, 0, 0, true);
    hide LoopPass;
    return Pass(0, 0, true);
  }

  /** A WebSocket run ends even if no acknowledgement ever comes: from any point its own timers and its loop alone
      bring it to an end. */
  lemma {:induction false} EndsByItself(r: Run) returns (ts: seq<Turn>)
    requires Inv(r) && r.running && r.config.mode.Ws?
    ensures Runs(r, ts) && !Exec(r, ts).running
    ensures forall t :: t in ts ==> t.Fire? || t.Pass?
    decreases Left(r), Rank(r)
  {
    hide Inv, Next, Enabled;
    LeftIsNatural(r);
    var t := SomeTurn(r);
    TurnKeepsInv(r, t);
    ts := [t];
    if Next(r, t).running {
      var rest := EndsByItself(Next(r, t));
      ts := [t] + rest;
      assert ts[1..] == rest;
    }
  }

  // ----- Every schedule ends -----

  /** How far the loop is from ending when nothing is in flight and nothing can be sent: being stopped, which sends it
      round once more, counts for two passes. */
  ghost function Idle(r: Run): nat {
    Rank(r) + if r.stopRequested then 0 else 2
  }

  /** The turn dispatched and settled nothing: what it did to the loop and the timers. */
  ghost predicate Idles(r: Run, r': Run, pass: bool) {
    && r'.timers == r.timers && r'.config == r.config
    && (r.inFlight == 0 ==> Idle(r') + (if pass then 1 else 0) <= Idle(r))
  }

  lemma PassIdles(r: Run, clock: nat, random: nat, sent: bool)
    requires Inv(r) && r.running && r.config.mode.Ws?
    requires var r' := LoopPass(r, clock, random, sent); r'.running && Left(r') == Left(r)
    ensures Idles(r, LoopPass(r, clock, random, sent), true)
  {
    PassShrinks(r, clock, random, sent);
    if r.loop.Inner? && MayDispatch(r) { DispatchShrinks(r, clock, random, sent); }
    hide Shared, Awaiting, Armed, Manned, Counted, Dispatch;
  }

  lemma DispatchShrinks(r: Run, clock: nat, random: nat, sent: bool)
    ensures Left(Dispatch(r, clock, random, sent)) < Left(r)
  {
    hide ClientId, Good;
  }

  lemma CloseCounts(r: Run, order: seq<string>)
    requires Inv(r) && r.running && r.config.mode.Ws? && Enabled(r, Close(order))
    ensures Left(Next(r, Close(order))) == Left(r) - |order|
  {
    FailAllExtends(r.(connected := false, stopRequested := true), order);
    hide Inv, Extends, Distinct, FailAll;
  }

  lemma CloseOfNothing(r: Run)
    requires r.running && r.config.mode.Ws? && Enabled(r, Close([]))
    ensures Idles(r, Next(r, Close([])), false)
  {
  }

  lemma CloseIdles(r: Run, order: seq<string>)
    requires Inv(r) && r.running && r.config.mode.Ws? && Enabled(r, Close(order)) && Left(Next(r, Close(order))) == Left(r)
    ensures Idles(r, Next(r, Close(order)), false)
  {
    hide Inv, Left, Next, Enabled, Idles;
    CloseCounts(r, order);
    assert order == [];
    CloseOfNothing(r);
  }

  lemma TurnIdles(r: Run, t: Turn)
    requires Inv(r) && r.running && r.config.mode.Ws? && Enabled(r, t)
    requires Next(r, t).running && Left(Next(r, t)) == Left(r)
    ensures Idles(r, Next(r, t), t.Pass?)
  {
    assert r.workers == [];
    match t
    case Pass(clock, random, sent) => PassIdles(r, clock, random, sent);
    case Close(order) => CloseIdles(r, order);
    case Fire(timer) => StillRunning(r, t);
    case _ => hide Inv, LoopPass, FailAll, Distinct, Good;
  }

  function Passes(ts: seq<Turn>): nat
    decreases |ts|
  {
    if ts == [] then 0 else (if ts[0].Pass? then 1 else 0) + Passes(ts[1..])
  }

  /** Once a run has ended, only a new one starts the page again. */
  lemma {:induction false} StaysEnded(r: Run, ts: seq<Turn>)
    requires Runs(r, ts) && OneRun(r, ts) && !r.running
    ensures !Exec(r, ts).running
    decreases |ts|
  {
    if ts == [] {
    } else {
      EndedStays(r, ts[0]);
      hide Next, Enabled, Restarts;
      StaysEnded(Next(r, ts[0]), ts[1..]);
    }
  }

  lemma EndedStays(r: Run, t: Turn)
    requires !r.running && Enabled(r, t) && !Restarts(r, t)
    ensures !Next(r, t).running
  {
    hide LoopPass, FailAll, Distinct, Good;
  }

  /** While a run goes on, either some work is done, or the timers stand still and each pass of an empty loop brings
      the end nearer. */
  lemma {:induction false} RunIdles(r: Run, ts: seq<Turn>)
    requires Inv(r) && r.running && r.config.mode.Ws? && Runs(r, ts) && OneRun(r, ts) && Exec(r, ts).running
    ensures var r' := Exec(r, ts);
      && r'.config == r.config && Left(r') <= Left(r)
      && (Left(r') == Left(r) ==> r'.timers == r.timers && (r.timers == map[] ==> Idle(r') + Passes(ts) <= Idle(r)))
    decreases |ts|
  {
    if ts == [] {
    } else {
      var r1 := Next(r, ts[0]);
      TurnKeepsInv(r, ts[0]);
      TurnShrinks(r, ts[0]);
      ConfigStays(r, ts[0]);
      if !r1.running { StaysEnded(r1, ts[1..]); }
      if r.timers == map[] { NoTimerLeft(r); }
      if r1.running && Left(r1) == Left(r) { TurnIdles(r, ts[0]); }
      hide Inv, Next, Enabled, Restarts, Left, Idle;
      RunIdles(r1, ts[1..]);
    }
  }

  lemma ConfigStays(r: Run, t: Turn)
    requires Inv(r) && Enabled(r, t) && !Restarts(r, t)
    ensures Next(r, t).config == r.config
  {
    match t
    case Pass(clock, random, sent) => PassConfig(r, clock, random, sent); hide Inv, LoopPass;
    case Close(order) => CloseExtends(r, order); hide Inv, FailAll, Distinct, Extends;
    case _ => hide Inv, LoopPass, FailAll, Distinct, Good;
  }

  /** A fair stretch of one run: if the run still goes on at its end, every timer armed at its beginning has fired or
      been cleared by then, and the loop has woken up often enough to make four passes. */
  ghost predicate FairRound(r: Run, ts: seq<Turn>) {
    && Runs(r, ts) && OneRun(r, ts)
    && (Exec(r, ts).running ==> (forall t :: t in r.timers ==> t !in Exec(r, ts).timers) && Passes(ts) >= 4)
  }

  /** A fair stretch ends the run or does some of its work, whatever acknowledgements, stops, closes and opens come in
      between. */
  lemma RoundProgresses(r: Run, ts: seq<Turn>)
    requires Inv(r) && r.running && r.config.mode.Ws? && FairRound(r, ts)
    ensures Inv(Exec(r, ts))
    ensures Exec(r, ts).running ==> Exec(r, ts).config == r.config && Left(Exec(r, ts)) < Left(r)
  {
    RunKeepsInv(r, ts);
    hide Inv, Runs, OneRun, Passes;
    if Exec(r, ts).running {
      RunIdles(r, ts);
      assert r.timers == Exec(r, ts).timers ==> r.timers == map[] by {
        if r.timers == Exec(r, ts).timers { forall t ensures t !in r.timers {} }
      }
    }
  }

  /** Fair stretches one after the other. */
  ghost predicate FairRounds(r: Run, rounds: seq<seq<Turn>>)
    decreases |rounds|
  {
    rounds == [] || (FairRound(r, rounds[0]) && FairRounds(Exec(r, rounds[0]), rounds[1..]))
  }

  ghost function AfterRounds(r: Run, rounds: seq<seq<Turn>>): Run
    requires FairRounds(r, rounds)
    decreases |rounds|
  {
    if rounds == [] then r else AfterRounds(Exec(r, rounds[0]), rounds[1..])
  }

  lemma {:induction false} EndedForRounds(r: Run, rounds: seq<seq<Turn>>)
    requires FairRounds(r, rounds) && !r.running
    ensures !AfterRounds(r, rounds).running
    decreases |rounds|
  {
    if rounds == [] {
    } else {
      StaysEnded(r, rounds[0]);
      EndedForRounds(Exec(r, rounds[0]), rounds[1..]);
    }
  }

  lemma {:induction false} RoundsEnd(r: Run, rounds: seq<seq<Turn>>)
    requires Inv(r) && r.running && r.config.mode.Ws? && FairRounds(r, rounds) && |rounds| > Left(r)
    ensures !AfterRounds(r, rounds).running
    decreases |rounds|
  {
    LeftIsNatural(r);
    var r' := Exec(r, rounds[0]);
    RoundProgresses(r, rounds[0]);
    hide Inv, Left, FairRound;
    if r'.running {
      RoundsEnd(r', rounds[1..]);
    } else {
      EndedForRounds(r', rounds[1..]);
    }
  }

  /** Every WebSocket run ends, on every fair schedule: twice its total and one more fair stretches are more than it
      can last. */
  lemma EveryRunEnds(r: Run, rounds: seq<seq<Turn>>)
    requires Inv(r) && r.running && r.config.mode.Ws? && FairRounds(r, rounds) && |rounds| >= 2 * r.config.total + 1
    ensures !AfterRounds(r, rounds).running
  {
    RoundsEnd(r, rounds);
  }

  // ----- Runs step by step -----

  lemma {:induction false} RunsSnoc(r: Run, ts: seq<Turn>, t: Turn)
    requires Runs(r, ts) && Enabled(Exec(r, ts), t)
    ensures Runs(r, ts + [t]) && Exec(r, ts + [t]) == Next(Exec(r, ts), t)
    decreases |ts|
  {
    hide Enabled, Next;
    if ts == [] {
      assert (ts + [t])[1..] == [];
    } else {
      assert (ts + [t])[1..] == ts[1..] + [t];
      RunsSnoc(Next(r, ts[0]), ts[1..], t);
    }
  }

  // ----- The page -----

  /** The state of the page, changed in place by its handlers. Each handler is proved to take one turn, so what every
      turn keeps holds whenever the page is between two of them. */
  class LoadTester {
    var config: Config
    var running: bool
    var stopRequested: bool
    var connected: bool
    var nextIndex: nat
    var completed: nat
    var success: nat
    var failed: nat
    var inFlight: nat
    var wsPending: map<string, Pending>
    var timers: map<nat, Timer>
    var nextTimer: nat
    var loop: Loop
    var workers: seq<Worker>
    ghost var open: set<nat>
    ghost var settled: map<nat, Cause>

    ghost function View(): Run
      reads this
    {
      Run(config, running, stopRequested, connected, nextIndex, completed, success, failed, inFlight,
          wsPending, timers, nextTimer, loop, workers, open, settled)
    }

    constructor ()
      ensures View() == FRESH
    {
      config, running, stopRequested, connected := IDLE_CONFIG, false, false, false;
      nextIndex, completed, success, failed, inFlight := 0, 0, 0, 0, 0;
      wsPending, timers, nextTimer, loop, workers := map[], map[], 0, Outer, [];
      open, settled := {}, map[];
    }

    // ----- Bookkeeping shared by the handlers -----

    method RecordSuccess()
      modifies this`completed, this`success
      ensures completed == old(completed) + 1 && success == old(success) + 1
    {
      completed := completed + 1;
      success := success + 1;
    }

    method RecordFailure()
      modifies this`completed, this`failed
      ensures completed == old(completed) + 1 && failed == old(failed) + 1
    {
      completed := completed + 1;
      failed := failed + 1;
    }

    /** Ends an attempt; `index` and `cause` are for the history. */
    method FinishAttempt(ghost index: nat, ghost cause: Cause)
      modifies this`inFlight, this`open, this`settled
      ensures inFlight == (if old(inFlight) > 0 then old(inFlight) - 1 else 0)
      ensures open == old(open) - {index} && settled == old(settled)[index := cause]
    {
      inFlight := if inFlight - 1 > 0 then inFlight - 1 else 0;
      open, settled := open - {index}, settled[index := cause];
    }

    /** What follows the end of an attempt: it is recorded, then finished. */
    method SettleAttempt(index: nat, cause: Cause)
      modifies this`completed, this`success, this`failed, this`inFlight, this`open, this`settled
      ensures View() == Settle(old(View()), index, cause)
    {
      if Good(cause) { RecordSuccess(); } else { RecordFailure(); }
      FinishAttempt(index, cause);
    }

    method TakeIndex() returns (index: nat)
      modifies this`nextIndex, this`inFlight, this`open
      ensures View() == Take(old(View())) && index == old(nextIndex)
    {
      index := nextIndex;
      nextIndex := nextIndex + 1;
      inFlight := inFlight + 1;
      open := open + {index};
    }

    /** Adds a pending acknowledgement and arms its timer. */
    method StartPending(index: nat, id: string, clock: nat, random: nat)
      requires id == ClientId(config.prefix, clock, index, random)
      modifies this`timers, this`nextTimer, this`wsPending
      ensures View() == Await(old(View()), index, clock, random)
    {
      timers := timers[nextTimer := Timer(id, index)];
      wsPending := wsPending[id := Pending(index, nextTimer, clock, random)];
      nextTimer := nextTimer + 1;
    }

    /** Clears the timer of a pending acknowledgement and forgets it. */
    method ClearPending(id: string) returns (found: Option<Pending>)
      modifies this`wsPending, this`timers
      ensures found == if id in old(wsPending) then Some(old(wsPending)[id]) else None
      ensures View() == if id in old(wsPending) then Forget(old(View()), id) else old(View())
    {
      if id !in wsPending { return None; }
      found := Some(wsPending[id]);
      timers := timers - {wsPending[id].timer};
      wsPending := wsPending - {id};
    }

    // ----- Handlers -----

    method HandleAck(id: string) returns (handled: bool)
      modifies this
      ensures View() == Next(old(View()), Ack(id)) && handled == (id in old(wsPending))
    {
      var pending := ClearPending(id);
      if pending.None? { return false; }
      SettleAttempt(pending.value.index, Acked);
      return true;
    }

    method OnTimeout(timer: nat)
      requires timer in timers
      modifies this
      ensures View() == Next(old(View()), Fire(timer))
    {
      var closure := timers[timer];
      timers := timers - {timer};
      var pending := ClearPending(closure.id);
      if pending.None? { return; }
      SettleAttempt(closure.index, TimedOut);
    }

    /** Fails every pending message. */
    method FailOutstanding(order: seq<string>)
      requires Distinct(order) && forall id :: id in order ==> id in wsPending
      modifies this
      ensures View() == FailAll(old(View()), order)
    {
      var i := 0;
      ghost var before := View();
      while i < |order|
        invariant 0 <= i <= |order|
        invariant forall id :: id in order[i..] ==> id in wsPending
        invariant FailAll(View(), order[i..]) == FailAll(before, order)
      {
        assert order[i] == order[i..][0] && order[i..][1..] == order[i + 1..];
        hide Settle, Forget;
        var index := wsPending[order[i]].index;
        var _ := ClearPending(order[i]);
        SettleAttempt(index, Disconnected);
        i := i + 1;
      }
    }

    method OnClose(order: seq<string>)
      requires Enabled(View(), Close(order))
      modifies this
      ensures View() == Next(old(View()), Close(order))
    {
      connected := false;
      if running && config.mode.Ws? {
        stopRequested := true;
        assert order != [] ==> order[0] in wsPending;
        if |wsPending| > 0 { FailOutstanding(order); }
      }
    }

    method OnOpen()
      modifies this`connected
      ensures View() == Next(old(View()), Open)
    {
      connected := true;
    }

    method StopLoadTest()
      modifies this`stopRequested
      ensures View() == Next(old(View()), Stop)
    {
      if !running || stopRequested { return; }
      stopRequested := true;
    }

    method ZeroCounters()
      modifies this`nextIndex, this`completed, this`success, this`failed, this`inFlight, this`open, this`settled
      ensures nextIndex == completed == success == failed == inFlight == 0 && open == {} && settled == map[]
    {
      nextIndex, completed, success, failed, inFlight := 0, 0, 0, 0, 0;
      open, settled := {}, map[];
    }

    method Reset(c: Config)
      modifies this
      ensures View() == NewRun(old(View()), c)
    {
      hide Crew;
      ZeroCounters();
      config, running, stopRequested := c, true, false;
      wsPending, loop, workers := map[], Outer, Crew(c);
    }

    method RunLoadTest(c: Config)
      requires Accepted(c)
      modifies this
      ensures View() == Next(old(View()), Start(c))
    {
      hide NewRun;
      if running { return; }
      if c.mode.Ws? && !connected { return; }
      Reset(c);
    }

    /** Sends the next message of a WebSocket run. */
    method DispatchMessage(clock: nat, random: nat, accepted: bool) returns (sent: bool)
      modifies this`nextIndex, this`inFlight, this`open, this`timers, this`nextTimer, this`wsPending
      modifies this`completed, this`success, this`failed, this`settled
      ensures View() == Dispatch(old(View()), clock, random, accepted) && sent == (accepted && connected)
      ensures nextIndex == old(nextIndex) + 1
    {
      hide ClientId, Settle, Forget;
      var index := TakeIndex();
      var id := ClientId(config.prefix, clock, index, random);
      StartPending(index, id, clock, random);
      if !(connected && accepted) {
        var _ := ClearPending(id);
        SettleAttempt(index, SendFailed);
        return false;
      }
      return true;
    }

    /** The inner loop: sends until told to stop, out of messages, at the limit, or due to sleep. */
    method SendMessages(ghost before: Run, ghost taken: seq<Turn>) returns (slept: bool, ghost turns: seq<Turn>)
      requires running && config.mode.Ws? && loop.Inner? && Follows(before, taken)
      modifies this`nextIndex, this`inFlight, this`open, this`timers, this`nextTimer, this`wsPending
      modifies this`completed, this`success, this`failed, this`settled
      ensures Follows(before, turns) && |turns| >= |taken| && (slept ==> turns != [])
      ensures slept == (config.delayMs > 0 && nextIndex > old(nextIndex)) && (!slept ==> !MayDispatch(View()))
    {
      hide Dispatch, Follows;
      turns := taken;
      while !stopRequested && nextIndex < config.total && inFlight < config.concurrency
        invariant Follows(before, turns) && |turns| >= |taken|
        invariant old(nextIndex) <= nextIndex && (config.delayMs > 0 ==> nextIndex == old(nextIndex))
        decreases config.total - nextIndex
      {
        var clock: nat := *;
        var random: nat := *;
        var accepted: bool := *;
        turns := Took(before, turns, Pass(clock, random, accepted));
        var _ := DispatchMessage(clock, random, accepted);
        Arrived(before, turns);
        if config.delayMs > 0 { return true, turns; }
      }
      return false, turns;
    }

    /** One turn of the sending loop, from where it woke up to where it next awaits; the clock, the random numbers
        and the fate of each frame come from outside. */
    method RunSendLoop() returns (ghost turns: seq<Turn>)
      requires running && config.mode.Ws?
      modifies this
      ensures Follows(old(View()), turns) && turns != []
      ensures running ==> loop.Outer? || (config.delayMs > 0 && nextIndex > old(nextIndex))
      ensures !running ==> inFlight == 0
    {
      hide Follows;
      ghost var before := View();
      turns := Nothing(before);
      if loop.Outer? {
        turns := StartPass(before, turns);
        if !running { return; }
      }
      var slept;
      slept, turns := SendMessages(before, turns);
      if !slept { turns := EndPass(before, turns); }
    }

    /** The head of the outer loop. */
    method StartPass(ghost before: Run, ghost taken: seq<Turn>) returns (ghost turns: seq<Turn>)
      requires running && config.mode.Ws? && loop.Outer? && Follows(before, taken)
      modifies this`running, this`loop
      ensures Follows(before, turns) && turns != [] && (if running then loop.Inner? else inFlight == 0)
    {
      hide Follows, Dispatch;
      turns := Took(before, taken, Pass(0, 0, true));
      if stopRequested && inFlight == 0 { running := false; } else { loop := Inner; }
      Arrived(before, turns);
    }

    /** After the inner loop: the end of the run, or a short sleep. */
    method EndPass(ghost before: Run, ghost taken: seq<Turn>) returns (ghost turns: seq<Turn>)
      requires running && config.mode.Ws? && loop.Inner? && !MayDispatch(View()) && Follows(before, taken)
      modifies this`running, this`loop
      ensures Follows(before, turns) && turns != [] && (if running then loop.Outer? else inFlight == 0)
    {
      hide Follows, Dispatch;
      turns := Took(before, taken, Pass(0, 0, true));
      if nextIndex >= config.total && inFlight == 0 { running := false; } else { loop := Outer; }
      Arrived(before, turns);
    }

    /** The page is where `turns`, all passes of the sending loop, lead from `before`. */
    ghost predicate Follows(before: Run, turns: seq<Turn>)
      reads this
    {
      Runs(before, turns) && View() == Exec(before, turns) && forall t :: t in turns ==> t.Pass?
    }

    lemma Nothing(before: Run) returns (turns: seq<Turn>)
      requires View() == before
      ensures Follows(before, turns)
    {
      return [];
    }

    /** The turn about to be taken. */
    lemma Took(before: Run, turns: seq<Turn>, t: Turn) returns (more: seq<Turn>)
      requires Follows(before, turns) && Enabled(View(), t) && t.Pass?
      ensures Ahead(before, more, Next(View(), t)) && |more| == |turns| + 1
    {
      RunsSnoc(before, turns, t);
      return turns + [t];
    }

    static ghost predicate Ahead(before: Run, turns: seq<Turn>, r: Run) {
      Runs(before, turns) && r == Exec(before, turns) && forall t :: t in turns ==> t.Pass?
    }

    lemma Arrived(before: Run, turns: seq<Turn>)
      requires Ahead(before, turns, View())
      ensures Follows(before, turns)
    {
    }

    /** A worker of an HTTP run between two requests. */
    method RunWorker(w: nat)
      requires w < |workers| && workers[w].Ready?
      modifies this
      ensures View() == Next(old(View()), Work(w))
    {
      if stopRequested { workers := workers[w := Exited]; return; }
      var index := nextIndex;
      if index >= config.total { workers := workers[w := Exited]; return; }
      index := TakeIndex();
      workers := workers[w := Fetching(index)];
    }

    method OnAnswer(w: nat, ok: bool)
      requires w < |workers| && workers[w].Fetching?
      modifies this
      ensures View() == Next(old(View()), Answer(w, ok))
    {
      SettleAttempt(workers[w].index, if ok then Answered else Rejected);
      workers := workers[w := if config.delayMs > 0 && !stopRequested then Sleeping else Ready];
    }

    /** The run is over when the last worker has returned. */
    method OnAllDone()
      requires Enabled(View(), AllDone)
      modifies this
      ensures View() == Next(old(View()), AllDone)
    {
      running := false;
    }
  }
}
