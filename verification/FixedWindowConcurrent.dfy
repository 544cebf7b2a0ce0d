/** One entry of the rate limiter under any number of threads, one atomic operation at a time. */
module FixedWindowConcurrent {

  /** Where a thread stands inside `Allow`. */
  datatype Pc =
    | Loading(now: int)
    | Swapping(now: int, start: int)
    | StoringOne
    | Adding
    | Comparing(current: int)
    | Undoing

  datatype State = State(
    windowStart: int,
    count: int,
    threads: map<nat, Pc>,  // threads inside a call
    admitted: nat,          // history: calls that returned true
    rejected: nat)          // history: calls that returned false

  datatype Action = Enter(t: nat, now: int) | Step(t: nat)

  predicate Enabled(s: State, a: Action) {
    match a
    case Enter(t, _) => t !in s.threads
    case Step(t) => t in s.threads
  }

  function Move(s: State, t: nat, pc: Pc): State { s.(threads := s.threads[t := pc]) }

  function Return(s: State, t: nat, ok: bool): State {
    s.(threads := s.threads - {t}, admitted := s.admitted + if ok then 1 else 0, rejected := s.rejected + if ok then 0 else 1)
  }

  function Apply(max: int, window: int, s: State, a: Action): State
    requires Enabled(s, a)
  {
    match a
    case Enter(t, now) => Move(s, t, Loading(now))
    case Step(t) =>
      match s.threads[t]
      case Loading(now) => Move(s, t, if now - s.windowStart >= window then Swapping(now, s.windowStart) else Adding)
      case Swapping(now, start) =>
        if s.windowStart == start then Move(s.(windowStart := now), t, StoringOne) else Move(s, t, Loading(now))
      case StoringOne => Return(s.(count := 1), t, true)
      case Adding => Move(s.(count := s.count + 1), t, Comparing(s.count + 1))
      case Comparing(current) => if current <= max then Return(s, t, true) else Move(s, t, Undoing)
      case Undoing => Return(s.(count := s.count - 1), t, false)
  }

  /** The call does not find the window over. */
  predicate InWindow(window: int, s: State, a: Action) {
    a.Enter? ==> a.now - s.windowStart < window
  }

  ghost predicate Runs(max: int, window: int, s: State, acts: seq<Action>)
    decreases |acts|
  {
    acts == [] || (Enabled(s, acts[0]) && InWindow(window, s, acts[0]) && Runs(max, window, Apply(max, window, s, acts[0]), acts[1..]))
  }

  function Exec(max: int, window: int, s: State, acts: seq<Action>): State
    requires Runs(max, window, s, acts)
    decreases |acts|
  {
    if acts == [] then s else Exec(max, window, Apply(max, window, s, acts[0]), acts[1..])
  }

  /** Took a slot and is about to return true. */
  predicate Winner(max: int, pc: Pc) { pc.Comparing? && pc.current <= max }

  /** Counted one too many and has not yet undone it. */
  predicate Loser(max: int, pc: Pc) { (pc.Comparing? && pc.current > max) || pc.Undoing? }

  function Winners(max: int, threads: map<nat, Pc>): set<nat> { set t | t in threads && Winner(max, threads[t]) }

  function Losers(max: int, threads: map<nat, Pc>): set<nat> { set t | t in threads && Loser(max, threads[t]) }

  /** No thread is about to open a new window. */
  ghost predicate Current(window: int, s: State) {
    forall t :: t in s.threads ==>
      !s.threads[t].Swapping? && !s.threads[t].StoringOne? && (s.threads[t].Loading? ==> s.threads[t].now - s.windowStart < window)
  }

  ghost predicate Balanced(max: int, s: State) {
    var taken, losing := s.admitted + |Winners(max, s.threads)|, |Losers(max, s.threads)|;
    s.count == taken + losing && taken <= max && (s.rejected > 0 || losing > 0 ==> taken == max)
  }

  ghost predicate Counted(max: int, window: int, s: State) {
    Current(window, s) && Balanced(max, s)
  }

  lemma Leaves(max: int, threads: map<nat, Pc>, t: nat)
    requires t in threads
    ensures |Winners(max, threads - {t})| == |Winners(max, threads)| - if Winner(max, threads[t]) then 1 else 0
    ensures |Losers(max, threads - {t})| == |Losers(max, threads)| - if Loser(max, threads[t]) then 1 else 0
  {
    assert Winners(max, threads - {t}) == Winners(max, threads) - {t};
    assert Losers(max, threads - {t}) == Losers(max, threads) - {t};
  }

  lemma Joins(max: int, threads: map<nat, Pc>, t: nat, pc: Pc)
    requires t !in threads
    ensures |Winners(max, threads[t := pc])| == |Winners(max, threads)| + if Winner(max, pc) then 1 else 0
    ensures |Losers(max, threads[t := pc])| == |Losers(max, threads)| + if Loser(max, pc) then 1 else 0
  {
    WinnerJoins(max, threads, t, pc);
    LoserJoins(max, threads, t, pc);
    hide Winners, Losers, Winner, Loser;
  }

  lemma WinnerJoins(max: int, threads: map<nat, Pc>, t: nat, pc: Pc)
    requires t !in threads
    ensures t !in Winners(max, threads)
    ensures Winners(max, threads[t := pc]) == if Winner(max, pc) then Winners(max, threads) + {t} else Winners(max, threads)
  {
    var more := threads[t := pc];
    hide Winner;
    assert forall x :: x in Winners(max, more) <==> (x == t && Winner(max, pc)) || x in Winners(max, threads);
  }

  lemma LoserJoins(max: int, threads: map<nat, Pc>, t: nat, pc: Pc)
    requires t !in threads
    ensures t !in Losers(max, threads)
    ensures Losers(max, threads[t := pc]) == if Loser(max, pc) then Losers(max, threads) + {t} else Losers(max, threads)
  {
    var more := threads[t := pc];
    hide Loser;
    assert forall x :: x in Losers(max, more) <==> (x == t && Loser(max, pc)) || x in Losers(max, threads);
  }

  lemma Moves(max: int, threads: map<nat, Pc>, t: nat, pc: Pc)
    requires t in threads
    ensures |Winners(max, threads[t := pc])|
         == |Winners(max, threads)| + (if Winner(max, pc) then 1 else 0) - (if Winner(max, threads[t]) then 1 else 0)
    ensures |Losers(max, threads[t := pc])|
         == |Losers(max, threads)| + (if Loser(max, pc) then 1 else 0) - (if Loser(max, threads[t]) then 1 else 0)
  {
    Leaves(max, threads, t);
    Joins(max, threads - {t}, t, pc);
    assert threads[t := pc] == (threads - {t})[t := pc];
  }

  lemma StepKeepsBalance(max: int, window: int, s: State, t: nat)
    requires Counted(max, window, s) && t in s.threads
    ensures Balanced(max, Apply(max, window, s, Step(t)))
  {
    var s' := Apply(max, window, s, Step(t));
    Leaves(max, s.threads, t);
    if t in s'.threads {
      Moves(max, s.threads, t, s'.threads[t]);
    }
  }

  lemma EnterKeepsBalance(max: int, window: int, s: State, t: nat, now: int)
    requires Balanced(max, s) && t !in s.threads
    ensures Balanced(max, Apply(max, window, s, Enter(t, now)))
  {
    Joins(max, s.threads, t, Loading(now));
  }

  lemma StepKeepsCurrent(max: int, window: int, s: State, a: Action)
    requires Current(window, s) && Enabled(s, a) && InWindow(window, s, a)
    ensures Current(window, Apply(max, window, s, a)) && Apply(max, window, s, a).windowStart == s.windowStart
  {
  }

  lemma StepKeepsCount(max: int, window: int, s: State, a: Action)
    requires Counted(max, window, s) && Enabled(s, a) && InWindow(window, s, a)
    ensures Counted(max, window, Apply(max, window, s, a))
  {
    StepKeepsCurrent(max, window, s, a);
    if a.Step? {
      StepKeepsBalance(max, window, s, a.t);
    } else {
      EnterKeepsBalance(max, window, s, a.t, a.now);
    }
  }

  lemma {:induction false} RunKeepsCount(max: int, window: int, s: State, acts: seq<Action>)
    requires Counted(max, window, s) && Runs(max, window, s, acts)
    ensures Counted(max, window, Exec(max, window, s, acts))
    decreases |acts|
  {
    if acts != [] {
      StepKeepsCount(max, window, s, acts[0]);
      RunKeepsCount(max, window, Apply(max, window, s, acts[0]), acts[1..]);
    }
  }

  /** Inside one window, however the threads interleave: the counter is the calls admitted plus those about to be,
      plus the rejections not yet undone; at most `max` are ever admitted; and a call is rejected, or about to be,
      only when exactly `max` took a slot. Between calls the counter is the number admitted, the smaller of `max`
      and the number of calls. */
  lemma OneWindow(max: int, window: int, start: int, acts: seq<Action>)
    requires max > 0 && Runs(max, window, State(start, 0, map[], 0, 0), acts)
    ensures var s := Exec(max, window, State(start, 0, map[], 0, 0), acts);
      && s.count == s.admitted + |Winners(max, s.threads)| + |Losers(max, s.threads)|
      && s.admitted + |Winners(max, s.threads)| <= max
      && (s.rejected > 0 || |Losers(max, s.threads)| > 0 ==> s.admitted + |Winners(max, s.threads)| == max)
      && (s.threads == map[] ==>
            s.count == s.admitted == if s.admitted + s.rejected <= max then s.admitted + s.rejected else max)
  {
    var s0 := State(start, 0, map[], 0, 0);
    assert Winners(max, s0.threads) == {} && Losers(max, s0.threads) == {};
    RunKeepsCount(max, window, s0, acts);
    var s := Exec(max, window, s0, acts);
    if s.threads == map[] {
      assert Winners(max, s.threads) == {} && Losers(max, s.threads) == {};
    }
  }

  // ----- Across windows -----

  /** Any interleaving, whatever the times. */
  predicate AnyRuns(max: int, window: int, s: State, acts: seq<Action>)
    decreases |acts|
  {
    acts == [] || (Enabled(s, acts[0]) && AnyRuns(max, window, Apply(max, window, s, acts[0]), acts[1..]))
  }

  function AnyExec(max: int, window: int, s: State, acts: seq<Action>): State
    requires AnyRuns(max, window, s, acts)
    decreases |acts|
  {
    if acts == [] then s else AnyExec(max, window, Apply(max, window, s, acts[0]), acts[1..])
  }

  /** How often a run opens a window, lets its opener through, and begins a call. */
  datatype Tally = Tally(openings: nat, openers: nat, calls: nat)

  function TallyOf(max: int, window: int, s: State, acts: seq<Action>): Tally
    requires AnyRuns(max, window, s, acts)
    decreases |acts|
  {
    if acts == [] then Tally(0, 0, 0) else
      var (a, s', rest) := (acts[0], Apply(max, window, s, acts[0]), TallyOf(max, window, Apply(max, window, s, acts[0]), acts[1..]));
      Tally(rest.openings + (if s'.windowStart != s.windowStart then 1 else 0),
            rest.openers + (if a.Step? && s.threads[a.t].StoringOne? && s'.admitted > s.admitted then 1 else 0),
            rest.calls + (if a.Enter? then 1 else 0))
  }

  function Openers(threads: map<nat, Pc>): set<nat> { set t | t in threads && threads[t].StoringOne? }

  /** Whoever is about to swap found the window it wants to replace over. */
  ghost predicate SwapsDue(window: int, s: State) {
    forall t :: t in s.threads && s.threads[t].Swapping? ==> s.threads[t].now - s.threads[t].start >= window
  }

  lemma OpenerLeaves(threads: map<nat, Pc>, t: nat)
    requires t in threads
    ensures |Openers(threads - {t})| == |Openers(threads)| - if threads[t].StoringOne? then 1 else 0
  {
    assert Openers(threads - {t}) == Openers(threads) - {t};
  }

  lemma OpenerJoins(threads: map<nat, Pc>, t: nat, pc: Pc)
    requires t !in threads
    ensures |Openers(threads[t := pc])| == |Openers(threads)| + if pc.StoringOne? then 1 else 0
  {
    var more := threads[t := pc];
    assert t !in Openers(threads);
    assert forall x :: x in Openers(more) <==> (x == t && pc.StoringOne?) || x in Openers(threads);
    assert Openers(more) == if pc.StoringOne? then Openers(threads) + {t} else Openers(threads);
  }

  lemma ThreadsAmong(threads: map<nat, Pc>, t: nat, pc: Pc)
    ensures |threads[t := pc]| == |threads| + if t in threads then 0 else 1
    ensures t in threads ==> |threads - {t}| == |threads| - 1
  {
    assert threads[t := pc].Keys == threads.Keys + {t} && (threads - {t}).Keys == threads.Keys - {t};
    assert |threads[t := pc]| == |threads[t := pc].Keys| && |threads - {t}| == |(threads - {t}).Keys| && |threads| == |threads.Keys|;
  }

  lemma OpenersMove(threads: map<nat, Pc>, t: nat, pc: Pc)
    ensures |Openers(threads[t := pc])| ==
      |Openers(threads)| + (if pc.StoringOne? then 1 else 0) - (if t in threads && threads[t].StoringOne? then 1 else 0)
  {
    if t in threads {
      OpenerLeaves(threads, t);
      OpenerJoins(threads - {t}, t, pc);
      assert threads[t := pc] == (threads - {t})[t := pc];
    } else {
      OpenerJoins(threads, t, pc);
    }
    hide Openers;
  }

  lemma StepTallies(max: int, window: int, s: State, a: Action)
    requires window > 0 && SwapsDue(window, s) && Enabled(s, a)
    ensures var s' := Apply(max, window, s, a);
      var opens := if s'.windowStart != s.windowStart then 1 else 0;
      var lets := if a.Step? && s.threads[a.t].StoringOne? && s'.admitted > s.admitted then 1 else 0;
      && SwapsDue(window, s') && s'.windowStart - s.windowStart >= window * opens
      && |Openers(s'.threads)| == |Openers(s.threads)| + opens - lets
      && |s'.threads| + s'.admitted + s'.rejected == |s.threads| + s.admitted + s.rejected + if a.Enter? then 1 else 0
  {
    var s' := Apply(max, window, s, a);
    match a
    case Enter(t, now) =>
      OpenersMove(s.threads, t, Loading(now));
      ThreadsAmong(s.threads, t, Loading(now));
    case Step(t) =>
      OpenerLeaves(s.threads, t);
      ThreadsAmong(s.threads, t, if t in s'.threads then s'.threads[t] else Undoing);
      if t in s'.threads { OpenersMove(s.threads, t, s'.threads[t]); }
  }

  lemma OneWindowMore(window: int, n: nat)
    ensures window * (n + 1) == window * n + window
  {
  }

  /** In every interleaving windows open at least one window apart, each by exactly one call, which is let through; and every
      call that has begun is inside or has been answered once. */
  lemma {:induction false} WindowsOpenOnce(max: int, window: int, s: State, acts: seq<Action>)
    requires window > 0 && SwapsDue(window, s) && AnyRuns(max, window, s, acts)
    ensures var (s', tally) := (AnyExec(max, window, s, acts), TallyOf(max, window, s, acts));
      && s'.windowStart - s.windowStart >= window * tally.openings
      && tally.openings == tally.openers + |Openers(s'.threads)| - |Openers(s.threads)|
      && |s'.threads| + s'.admitted + s'.rejected == |s.threads| + s.admitted + s.rejected + tally.calls
    decreases |acts|
  {
    if acts != [] {
      StepTallies(max, window, s, acts[0]);
      hide Apply, Enabled, SwapsDue, Openers;
      WindowsOpenOnce(max, window, Apply(max, window, s, acts[0]), acts[1..]);
      var n := TallyOf(max, window, Apply(max, window, s, acts[0]), acts[1..]).openings;
      OneWindowMore(window, n);
    }
  }
}
