/** The limiter's maximum over any number of windows and threads: exactly which overlaps of calls with the start of a window
    make it let more calls through in one window. */
module FixedWindowMaximum {
  import opened FixedWindowConcurrent

  /** The entry with its history: how often a count was stored anew, when each thread counted itself, and how many slots of
      the current window have been taken, the opener's among them. */
  datatype Book = Book(s: State, stores: nat, since: map<nat, nat>, taken: nat)

  predicate Storing(s: State) { exists t :: t in s.threads && s.threads[t].StoringOne? }

  function Next(max: int, window: int, b: Book, a: Action): Book
    requires Enabled(b.s, a)
  {
    var s' := Apply(max, window, b.s, a);
    if a.Enter? then b.(s := s')
    else match b.s.threads[a.t]
      case Swapping(_, start) => b.(s := s', taken := if b.s.windowStart == start then 1 else b.taken)
      case StoringOne => b.(s := s', stores := b.stores + 1)
      case Adding => b.(s := s', since := b.since[a.t := b.stores], taken := if b.s.count + 1 <= max then b.taken + 1 else b.taken)
      case _ => b.(s := s')
  }

  /** A call counts itself in between the swap of a window's start and the store of its count, and is let through; or it takes
      its count back although a new count has been stored since. */
  datatype Overlap = LostCount | LateUndo

  function Shown(max: int, b: Book, a: Action): set<Overlap>
    requires Enabled(b.s, a)
  {
    if a.Enter? then {}
    else match b.s.threads[a.t]
      case Adding => if b.s.count + 1 <= max && Storing(b.s) then {LostCount} else {}
      case Undoing => if a.t in b.since && b.since[a.t] == b.stores then {} else {LateUndo}
      case _ => {}
  }

  predicate Runs(max: int, window: int, b: Book, acts: seq<Action>)
    decreases |acts|
  {
    acts == [] || (Enabled(b.s, acts[0]) && Runs(max, window, Next(max, window, b, acts[0]), acts[1..]))
  }

  function Exec(max: int, window: int, b: Book, acts: seq<Action>): Book
    requires Runs(max, window, b, acts)
    decreases |acts|
  {
    if acts == [] then b else Exec(max, window, Next(max, window, b, acts[0]), acts[1..])
  }

  /** The run shows overlaps of these kinds only. */
  ghost predicate OnlyKinds(max: int, window: int, b: Book, acts: seq<Action>, kinds: set<Overlap>)
    requires Runs(max, window, b, acts)
    decreases |acts|
  {
    acts == [] || (Shown(max, b, acts[0]) <= kinds && OnlyKinds(max, window, Next(max, window, b, acts[0]), acts[1..], kinds))
  }

  function Fresh(start: int): Book { Book(State(start, 0, map[], 0, 0), 0, map[], 0) }

  // ----- Without overlaps -----

  /** The threads that have counted one too many since the last store and have not taken it back. */
  function Pending(max: int, b: Book): set<nat> {
    set t | t in b.s.threads && Loser(max, b.s.threads[t]) && t in b.since && b.since[t] == b.stores
  }

  ghost predicate Kept(max: int, b: Book) {
    && b.taken <= max
    && (Storing(b.s) ==> b.taken == 1)
    && (!Storing(b.s) ==> b.s.count == b.taken + |Pending(max, b)|)
    && (forall t :: t in b.since ==> b.since[t] <= b.stores)
    && (forall t :: t in b.s.threads && (b.s.threads[t].Comparing? || b.s.threads[t].Undoing?) ==> t in b.since)
  }

  lemma SizeMoves(p: set<nat>, p': set<nat>, t: nat)
    requires p - {t} == p' - {t}
    ensures |p'| == |p| + (if t in p' then 1 else 0) - (if t in p then 1 else 0)
  {
    if t in p { assert p == (p - {t}) + {t}; } else { assert p == p - {t}; }
    if t in p' { assert p' == (p' - {t}) + {t}; } else { assert p' == p' - {t}; }
  }

  /** A step of a thread that joins or leaves those pending, or neither. */
  lemma PendingMoves(max: int, b: Book, b': Book, t: nat)
    requires b'.stores == b.stores
    requires forall x :: x != t ==> (x in b'.since <==> x in b.since) && (x in b.since ==> b'.since[x] == b.since[x])
    requires forall x :: x != t ==> (x in b'.s.threads <==> x in b.s.threads) && (x in b.s.threads ==> b'.s.threads[x] == b.s.threads[x])
    ensures |Pending(max, b')| == |Pending(max, b)| + (if t in Pending(max, b') then 1 else 0) - (if t in Pending(max, b) then 1 else 0)
  {
    var p, p' := Pending(max, b), Pending(max, b');
    hide Loser;
    forall x ensures x in p' - {t} <==> x in p - {t} {}
    SizeMoves(p, p', t);
  }

  lemma OthersStore(s: State, s': State, t: nat)
    requires forall x :: x != t ==> (x in s'.threads <==> x in s.threads) && (x in s.threads ==> s'.threads[x] == s.threads[x])
    requires t in s.threads ==> !s.threads[t].StoringOne?
    requires t in s'.threads ==> !s'.threads[t].StoringOne?
    ensures Storing(s') <==> Storing(s)
  {
    if x :| x in s.threads && s.threads[x].StoringOne? { assert x in s'.threads && s'.threads[x].StoringOne?; }
    if x :| x in s'.threads && s'.threads[x].StoringOne? { assert x in s.threads && s.threads[x].StoringOne?; }
  }

  lemma EnterKeeps(max: int, window: int, b: Book, t: nat, now: int)
    requires Kept(max, b) && t !in b.s.threads
    ensures Kept(max, Next(max, window, b, Enter(t, now)))
  {
    var b' := Next(max, window, b, Enter(t, now));
    PendingMoves(max, b, b', t);
    OthersStore(b.s, b'.s, t);
    assert t !in Pending(max, b) && t !in Pending(max, b');
    hide Pending, Storing;
  }

  /** Steps that neither open a window nor store a count. */
  lemma StepKeeps(max: int, window: int, b: Book, t: nat)
    requires max > 0 && Kept(max, b) && t in b.s.threads && Shown(max, b, Step(t)) == {}
    requires !b.s.threads[t].StoringOne? && !b.s.threads[t].Swapping?
    ensures Kept(max, Next(max, window, b, Step(t)))
  {
    var b' := Next(max, window, b, Step(t));
    PendingMoves(max, b, b', t);
    OthersStore(b.s, b'.s, t);
    var pc := b.s.threads[t];
    assert t in Pending(max, b) <==> Loser(max, pc) && t in b.since && b.since[t] == b.stores;
    assert t in Pending(max, b') <==> t in b'.s.threads && Loser(max, b'.s.threads[t]) && t in b'.since && b'.since[t] == b.stores;
    hide Pending, Storing;
  }

  lemma SwapKeeps(max: int, window: int, b: Book, t: nat)
    requires max > 0 && Kept(max, b) && t in b.s.threads && b.s.threads[t].Swapping?
    ensures Kept(max, Next(max, window, b, Step(t)))
  {
    var b' := Next(max, window, b, Step(t));
    if b.s.windowStart == b.s.threads[t].start {
      assert t in b'.s.threads && b'.s.threads[t].StoringOne?;
    } else {
      PendingMoves(max, b, b', t);
      OthersStore(b.s, b'.s, t);
      assert t !in Pending(max, b) && t !in Pending(max, b');
      hide Pending, Storing;
    }
  }

  /** A store wipes out whatever was pending. */
  lemma StoreKeeps(max: int, window: int, b: Book, t: nat)
    requires max > 0 && Kept(max, b) && t in b.s.threads && b.s.threads[t].StoringOne?
    ensures Kept(max, Next(max, window, b, Step(t)))
  {
    var b' := Next(max, window, b, Step(t));
    assert Storing(b.s);
    assert Pending(max, b') == {};
  }

  lemma ActionKeeps(max: int, window: int, b: Book, a: Action)
    requires max > 0 && Kept(max, b) && Enabled(b.s, a) && Shown(max, b, a) == {}
    ensures Kept(max, Next(max, window, b, a))
  {
    hide Kept, Next, Shown;
    match a
    case Enter(t, now) => EnterKeeps(max, window, b, t, now);
    case Step(t) =>
      if b.s.threads[t].StoringOne? { StoreKeeps(max, window, b, t); }
      else if b.s.threads[t].Swapping? { SwapKeeps(max, window, b, t); }
      else { StepKeeps(max, window, b, t); }
  }

  lemma {:induction false} RunKeeps(max: int, window: int, b: Book, acts: seq<Action>)
    requires max > 0 && Kept(max, b) && Runs(max, window, b, acts) && OnlyKinds(max, window, b, acts, {})
    ensures Kept(max, Exec(max, window, b, acts))
    decreases |acts|
  {
    hide Kept;
    if acts != [] {
      ActionKeeps(max, window, b, acts[0]);
      hide Enabled, Next, Shown;
      RunKeeps(max, window, Next(max, window, b, acts[0]), acts[1..]);
    }
  }

  lemma FreshKept(max: int, start: int)
    requires max > 0
    ensures Kept(max, Fresh(start))
  {
    assert Pending(max, Fresh(start)) == {};
  }

  // ----- Runs with overlaps -----

  ghost predicate Leads(max: int, window: int, kinds: set<Overlap>, b: Book) {
    exists acts :: Runs(max, window, Fresh(0), acts) && OnlyKinds(max, window, Fresh(0), acts, kinds)
                   && Exec(max, window, Fresh(0), acts) == b
  }

  lemma {:induction false} OneMore(max: int, window: int, kinds: set<Overlap>, b: Book, acts: seq<Action>, a: Action)
    requires Runs(max, window, b, acts) && OnlyKinds(max, window, b, acts, kinds)
    requires Enabled(Exec(max, window, b, acts).s, a) && Shown(max, Exec(max, window, b, acts), a) <= kinds
    ensures Runs(max, window, b, acts + [a]) && OnlyKinds(max, window, b, acts + [a], kinds)
    ensures Exec(max, window, b, acts + [a]) == Next(max, window, Exec(max, window, b, acts), a)
    decreases |acts|
  {
    hide Enabled, Shown, Next;
    if acts == [] {
      assert (acts + [a])[1..] == [];
    } else {
      assert (acts + [a])[1..] == acts[1..] + [a];
      OneMore(max, window, kinds, Next(max, window, b, acts[0]), acts[1..], a);
    }
  }

  lemma Goes(max: int, window: int, kinds: set<Overlap>, b: Book, a: Action)
    requires Leads(max, window, kinds, b) && Enabled(b.s, a) && Shown(max, b, a) <= kinds
    ensures Leads(max, window, kinds, Next(max, window, b, a))
  {
    hide Enabled, Shown, Next, OnlyKinds, Runs, Exec, Fresh;
    var acts :| Runs(max, window, Fresh(0), acts) && OnlyKinds(max, window, Fresh(0), acts, kinds)
                && Exec(max, window, Fresh(0), acts) == b;
    OneMore(max, window, kinds, Fresh(0), acts, a);
    assert Runs(max, window, Fresh(0), acts + [a]);
  }

  /** A whole call that is let through. */
  lemma Admits(max: int, window: int, kinds: set<Overlap>, b: Book, t: nat) returns (b': Book)
    requires Leads(max, window, kinds, b) && t !in b.s.threads && window > 0 && b.s.count < max
    requires Storing(b.s) ==> LostCount in kinds
    ensures Leads(max, window, kinds, b') && b'.s.threads == b.s.threads && b'.s.windowStart == b.s.windowStart
    ensures b'.s.count == b.s.count + 1 && b'.taken == b.taken + 1 && b'.stores == b.stores
    ensures forall x :: x != t ==> (x in b'.since <==> x in b.since) && (x in b.since ==> b'.since[x] == b.since[x])
  {
    var enter := Enter(t, b.s.windowStart);
    hide Leads;
    Goes(max, window, kinds, b, enter);
    var b1 := Next(max, window, b, enter);
    Goes(max, window, kinds, b1, Step(t));
    var b2 := Next(max, window, b1, Step(t));
    assert b2.s.threads == b.s.threads[t := Adding];
    OthersStore(b.s, b2.s, t);
    hide Storing;
    Goes(max, window, kinds, b2, Step(t));
    var b3 := Next(max, window, b2, Step(t));
    Goes(max, window, kinds, b3, Step(t));
    b' := Next(max, window, b3, Step(t));
    assert b'.s.threads == b.s.threads;
  }

  lemma {:induction false} AdmitsMany(max: int, window: int, kinds: set<Overlap>, b: Book, first: nat, n: nat) returns (b': Book)
    requires Leads(max, window, kinds, b) && window > 0 && b.s.count + n <= max
    requires (forall t :: first <= t ==> t !in b.s.threads) && (Storing(b.s) ==> LostCount in kinds)
    ensures Leads(max, window, kinds, b') && b'.s.threads == b.s.threads && b'.s.windowStart == b.s.windowStart
    ensures b'.s.count == b.s.count + n && b'.taken == b.taken + n && b'.stores == b.stores
    ensures forall x :: x < first ==> (x in b'.since <==> x in b.since) && (x in b.since ==> b'.since[x] == b.since[x])
    decreases n
  {
    hide Leads;
    b' := b;
    if n > 0 {
      b' := Admits(max, window, kinds, b, first);
      assert Storing(b'.s) ==> Storing(b.s);
      b' := AdmitsMany(max, window, kinds, b', first + 1, n - 1);
    }
  }

  /** A call up to the point where it has opened a new window and not stored its count. */
  lemma OpensWindow(max: int, window: int, kinds: set<Overlap>, b: Book, t: nat) returns (b': Book)
    requires Leads(max, window, kinds, b) && t !in b.s.threads && window > 0
    ensures Leads(max, window, kinds, b') && b'.s.threads == b.s.threads[t := StoringOne] && b'.s.count == b.s.count
    ensures b'.taken == 1 && b'.stores == b.stores && b'.since == b.since
  {
    var enter := Enter(t, b.s.windowStart + window);
    hide Leads;
    Goes(max, window, kinds, b, enter);
    b' := Next(max, window, b, enter);
    Goes(max, window, kinds, b', Step(t));
    b' := Next(max, window, b', Step(t));
    Goes(max, window, kinds, b', Step(t));
    b' := Next(max, window, b', Step(t));
    assert b'.s.threads == b.s.threads[t := StoringOne];
  }

  lemma Begins(max: int, window: int, kinds: set<Overlap>)
    ensures Leads(max, window, kinds, Fresh(0))
  {
    assert Runs(max, window, Fresh(0), []) && OnlyKinds(max, window, Fresh(0), [], kinds);
    assert Exec(max, window, Fresh(0), []) == Fresh(0);
  }

  lemma LostCountExceeds(max: int, window: int, kinds: set<Overlap>) returns (b: Book)
    requires max > 0 && window > 0 && LostCount in kinds
    ensures Leads(max, window, kinds, b) && b.taken == max + 1
  {
    Begins(max, window, kinds);
    hide Leads;
    b := OpensWindow(max, window, kinds, Fresh(0), 0);
    b := AdmitsMany(max, window, kinds, b, 1, max);
  }

  /** The window is full and one call has counted one too many. */
  lemma Overcounts(max: int, window: int, kinds: set<Overlap>) returns (b: Book)
    requires max > 0 && window > 0
    ensures Leads(max, window, kinds, b) && b.s.threads == map[0 := Comparing(max + 1)] && b.stores == 0
    ensures 0 in b.since && b.since[0] == 0
  {
    Begins(max, window, kinds);
    hide Leads;
    assert !Storing(Fresh(0).s);
    b := AdmitsMany(max, window, kinds, Fresh(0), 1, max);
    assert !Storing(b.s);
    Goes(max, window, kinds, b, Enter(0, b.s.windowStart));
    b := Next(max, window, b, Enter(0, b.s.windowStart));
    Goes(max, window, kinds, b, Step(0));
    b := Next(max, window, b, Step(0));
    Goes(max, window, kinds, b, Step(0));
    b := Next(max, window, b, Step(0));
  }

  lemma LateUndoExceeds(max: int, window: int, kinds: set<Overlap>) returns (b: Book)
    requires max > 0 && window > 0 && LateUndo in kinds
    ensures Leads(max, window, kinds, b) && b.taken == max + 1
  {
    b := Overcounts(max, window, kinds);
    hide Leads;
    b := OpensWindow(max, window, kinds, b, 1);
    Goes(max, window, kinds, b, Step(1));
    b := Next(max, window, b, Step(1));
    assert b.s.threads == map[0 := Comparing(max + 1)];
    Goes(max, window, kinds, b, Step(0));
    b := Next(max, window, b, Step(0));
    Goes(max, window, kinds, b, Step(0));
    b := Next(max, window, b, Step(0));
    assert b.s.threads == map[] && b.s.count == 0;
    assert !Storing(b.s);
    b := AdmitsMany(max, window, kinds, b, 2, max);
  }

  // ----- The exact condition -----

  lemma BadRun(max: int, window: int, kinds: set<Overlap>) returns (acts: seq<Action>)
    requires max > 0 && window > 0 && kinds != {}
    ensures Runs(max, window, Fresh(0), acts) && OnlyKinds(max, window, Fresh(0), acts, kinds)
    ensures Exec(max, window, Fresh(0), acts).taken == max + 1
  {
    var k :| k in kinds;
    var b;
    if k.LostCount? { b := LostCountExceeds(max, window, kinds); } else { b := LateUndoExceeds(max, window, kinds); }
    hide Runs, Exec, OnlyKinds, Fresh;
    acts :| Runs(max, window, Fresh(0), acts) && OnlyKinds(max, window, Fresh(0), acts, kinds)
            && Exec(max, window, Fresh(0), acts) == b;
  }

  /** For every configuration and every set of kinds of overlaps: in all interleavings, over any number of windows, that show
      overlaps of these kinds only, no window gives out more than the maximum of slots, if and only if there are none. */
  lemma MaximumIff(max: int, window: int, kinds: set<Overlap>)
    requires max > 0 && window > 0
    ensures kinds == {} <==>
      forall start, acts :: Runs(max, window, Fresh(start), acts) && OnlyKinds(max, window, Fresh(start), acts, kinds) ==>
        Exec(max, window, Fresh(start), acts).taken <= max
  {
    hide Runs, Exec, OnlyKinds, Fresh;
    if kinds == {} {
      forall start, acts | Runs(max, window, Fresh(start), acts) && OnlyKinds(max, window, Fresh(start), acts, kinds)
        ensures Exec(max, window, Fresh(start), acts).taken <= max
      {
        FreshKept(max, start);
        RunKeeps(max, window, Fresh(start), acts);
      }
    } else {
      var acts := BadRun(max, window, kinds);
    }
  }
}
