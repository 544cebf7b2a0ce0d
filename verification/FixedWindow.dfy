/** The fixed-window rate limiter, one call at a time: rollover, counting and the clean-up of idle entries. */
module FixedWindow {
  import opened Domain

  datatype Entry = Entry(windowStart: int, count: int, lastSeen: int)

  datatype Config = Config(max: int, window: int, ttl: int)

  predicate Usable(c: Config) { c.max > 0 && c.window > 0 && c.ttl > 0 }

  /** Times are in nanoseconds. */
  const SECOND: int := 1_000_000_000

  function Configure(max: int, window: int, ttl: int): (c: Config)
    ensures Usable(c)
    ensures max > 0 && window > 0 && ttl > 0 ==> c == Config(max, window, ttl)
    ensures max <= 0 && window <= 0 && ttl <= 0 ==> c == Config(30, SECOND, 300 * SECOND)
  {
    Config(if max <= 0 then 30 else max, if window <= 0 then SECOND else window, if ttl <= 0 then 300 * SECOND else ttl)
  }

  /** One call on an entry: a new window opens when the old one is over, else the call takes a slot if one is left. */
  function Hit(c: Config, e: Entry, now: int): (Entry, bool) {
    if now - e.windowStart >= c.window then (Entry(now, 1, now), true)
    else if e.count + 1 <= c.max then (Entry(e.windowStart, e.count + 1, now), true)
    else (Entry(e.windowStart, e.count, now), false)
  }

  type Entries = map<string, Entry>

  function Lookup(entries: Entries, key: string, now: int): Entry {
    if key in entries then entries[key] else Entry(now, 0, now)
  }

  /** Drops the entries not used for longer than the time to live. */
  function Sweep(c: Config, entries: Entries, now: int): Entries {
    map key | key in entries && now - entries[key].lastSeen <= c.ttl :: entries[key]
  }

  const SWEEP_EVERY: nat := 512
  const CALLS_SPAN: nat := 0x1_0000_0000_0000_0000

  datatype Limiter = Limiter(entries: Entries, calls: nat)

  function Decide(c: Config, l: Limiter, key: string, now: int): (Limiter, bool) {
    var (e, ok) := Hit(c, Lookup(l.entries, key, now), now);
    var entries, calls := l.entries[key := e], (l.calls + 1) % CALLS_SPAN;
    (Limiter(if calls % SWEEP_EVERY == 0 then Sweep(c, entries, now) else entries, calls), ok)
  }

  class FixedWindowLimiter {
    const config: Config
    var entries: Entries
    var calls: nat

    constructor (max: int, window: int, ttl: int)
      ensures config == Configure(max, window, ttl) && entries == map[] && calls == 0
    {
      config, entries, calls := Configure(max, window, ttl), map[], 0;
    }

    method MaybeCleanup(now: int)
      modifies this
      ensures calls == (old(calls) + 1) % CALLS_SPAN
      ensures entries == if calls % SWEEP_EVERY == 0 then Sweep(config, old(entries), now) else old(entries)
    {
      calls := (calls + 1) % CALLS_SPAN;
      if calls % SWEEP_EVERY != 0 { return; }
      var left := entries.Keys;
      while left != {}
        invariant left <= old(entries).Keys && calls == (old(calls) + 1) % CALLS_SPAN
        invariant forall key :: key in entries <==>
          key in old(entries) && (key in left || now - old(entries)[key].lastSeen <= config.ttl)
        invariant forall key :: key in entries ==> entries[key] == old(entries)[key]
        decreases left
      {
        var key :| key in left;
        left := left - {key};
        if now - entries[key].lastSeen > config.ttl {
          entries := entries - {key};
        }
      }
      assert entries == Sweep(config, old(entries), now);
    }

    method Allow(key: string, now: int) returns (ok: bool)
      modifies this
      ensures (Limiter(entries, calls), ok) == Decide(config, Limiter(old(entries), old(calls)), key, now)
    {
      var e := Lookup(entries, key, now);
      e := e.(lastSeen := now);
      if now - e.windowStart >= config.window {
        e := e.(windowStart := now, count := 1);
        ok := true;
      } else {
        e := e.(count := e.count + 1);
        ok := e.count <= config.max;
        if !ok {
          e := e.(count := e.count - 1);
        }
      }
      entries := entries[key := e];
      MaybeCleanup(now);
    }
  }

  // ----- Runs, with and without the clean-up -----

  datatype Request = Request(key: string, now: int)

  predicate InOrder(reqs: seq<Request>) {
    forall i, j :: 0 <= i < j < |reqs| ==> reqs[i].now <= reqs[j].now
  }

  function Answers(c: Config, l: Limiter, reqs: seq<Request>): (r: seq<bool>)
    ensures |r| == |reqs|
    decreases |reqs|
  {
    if reqs == [] then [] else
      var (l', ok) := Decide(c, l, reqs[0].key, reqs[0].now);
      [ok] + Answers(c, l', reqs[1..])
  }

  /** The limiter that never cleans up. */
  function PlainAnswers(c: Config, entries: Entries, reqs: seq<Request>): (r: seq<bool>)
    ensures |r| == |reqs|
    decreases |reqs|
  {
    if reqs == [] then [] else
      var (e, ok) := Hit(c, Lookup(entries, reqs[0].key, reqs[0].now), reqs[0].now);
      [ok] + PlainAnswers(c, entries[reqs[0].key := e], reqs[1..])
  }

  /** What is kept is the same, and what was cleaned away has a window that is over. */
  ghost predicate Matches(c: Config, entries: Entries, plain: Entries, clock: int) {
    && (forall key :: key in entries ==> key in plain && entries[key] == plain[key])
    && (forall key :: key in plain ==> plain[key].windowStart <= plain[key].lastSeen <= clock)
    && (forall key :: key in plain && key !in entries ==> clock - plain[key].windowStart >= c.window)
  }

  lemma {:induction false} SameAnswers(c: Config, l: Limiter, plain: Entries, reqs: seq<Request>, clock: int)
    requires Usable(c) && c.ttl + 1 >= c.window && InOrder(reqs) && (reqs != [] ==> clock <= reqs[0].now)
    requires Matches(c, l.entries, plain, clock)
    ensures Answers(c, l, reqs) == PlainAnswers(c, plain, reqs)
    decreases |reqs|
  {
    if reqs != [] {
      var key, now := reqs[0].key, reqs[0].now;
      var (l', ok) := Decide(c, l, key, now);
      var (e, ok') := Hit(c, Lookup(plain, key, now), now);
      assert ok == ok' && l.entries[key := Hit(c, Lookup(l.entries, key, now), now).0] == l.entries[key := e];
      SameAnswers(c, l', plain[key := e], reqs[1..], now);
    }
  }

  /** With a time to live no shorter than the window (less one tick) no clean-up ever changes an answer. */
  lemma CleanupIsInvisible(c: Config, reqs: seq<Request>)
    requires Usable(c) && c.ttl + 1 >= c.window && InOrder(reqs)
    ensures Answers(c, Limiter(map[], 0), reqs) == PlainAnswers(c, map[], reqs)
  {
    SameAnswers(c, Limiter(map[], 0), map[], reqs, if reqs == [] then 0 else reqs[0].now);
  }

  function After(c: Config, l: Limiter, reqs: seq<Request>): Limiter
    decreases |reqs|
  {
    if reqs == [] then l else After(c, Decide(c, l, reqs[0].key, reqs[0].now).0, reqs[1..])
  }

  function PlainAfter(c: Config, entries: Entries, reqs: seq<Request>): Entries
    decreases |reqs|
  {
    if reqs == [] then entries else
      PlainAfter(c, entries[reqs[0].key := Hit(c, Lookup(entries, reqs[0].key, reqs[0].now), reqs[0].now).0], reqs[1..])
  }

  lemma {:induction false} AnswersOfLast(c: Config, l: Limiter, plain: Entries, reqs: seq<Request>, last: Request)
    ensures Answers(c, l, reqs + [last])[|reqs|] == Decide(c, After(c, l, reqs), last.key, last.now).1
    ensures PlainAnswers(c, plain, reqs + [last])[|reqs|]
            == Hit(c, Lookup(PlainAfter(c, plain, reqs), last.key, last.now), last.now).1
    decreases |reqs|
  {
    if reqs == [] {
      assert reqs + [last] == [last];
    } else {
      assert (reqs + [last])[1..] == reqs[1..] + [last];
      var l' := Decide(c, l, reqs[0].key, reqs[0].now).0;
      var plain' := plain[reqs[0].key := Hit(c, Lookup(plain, reqs[0].key, reqs[0].now), reqs[0].now).0];
      AnswersOfLast(c, l', plain', reqs[1..], last);
    }
  }

  lemma {:induction false} AfterConcat(c: Config, l: Limiter, plain: Entries, xs: seq<Request>, ys: seq<Request>)
    ensures After(c, l, xs + ys) == After(c, After(c, l, xs), ys)
    ensures PlainAfter(c, plain, xs + ys) == PlainAfter(c, PlainAfter(c, plain, xs), ys)
    decreases |xs|
  {
    if xs == [] {
      assert xs + ys == ys;
    } else {
      assert (xs + ys)[1..] == xs[1..] + ys;
      var l' := Decide(c, l, xs[0].key, xs[0].now).0;
      AfterConcat(c, l', plain[xs[0].key := Hit(c, Lookup(plain, xs[0].key, xs[0].now), xs[0].now).0], xs[1..], ys);
    }
  }

  function Repeat(r: Request, n: nat): (s: seq<Request>)
    ensures |s| == n && forall i :: 0 <= i < n ==> s[i] == r
  {
    if n == 0 then [] else [r] + Repeat(r, n - 1)
  }

  /** `taken` slots of "a" are taken, all at time 0, with and without the clean-up. */
  predicate Taken(l: Limiter, plain: Entries, taken: nat) {
    && l.calls % SWEEP_EVERY == taken % SWEEP_EVERY
    && Lookup(l.entries, "a", 0) == Entry(0, taken, 0) && Lookup(plain, "a", 0) == Entry(0, taken, 0)
    && (taken > 0 ==> "a" in l.entries && "a" in plain)
  }

  lemma TakeOne(c: Config, l: Limiter, plain: Entries, taken: nat)
    requires Usable(c) && taken < c.max && Taken(l, plain, taken)
    ensures Taken(Decide(c, l, "a", 0).0, plain["a" := Hit(c, Lookup(plain, "a", 0), 0).0], taken + 1)
  {
    NextCall(l.calls, taken);
    var calls := (l.calls + 1) % CALLS_SPAN;
    var entries := l.entries["a" := Entry(0, taken + 1, 0)];
    assert "a" in entries && entries["a"] == Entry(0, taken + 1, 0);
    assert "a" in Sweep(c, entries, 0) && Sweep(c, entries, 0)["a"] == Entry(0, taken + 1, 0);
    assert Hit(c, Entry(0, taken, 0), 0) == (Entry(0, taken + 1, 0), true);
    hide Sweep, Hit;
  }

  /** The call count keeps step with the slots, whatever its word width. */
  lemma NextCall(calls: nat, taken: nat)
    requires calls % SWEEP_EVERY == taken % SWEEP_EVERY
    ensures ((calls + 1) % CALLS_SPAN) % SWEEP_EVERY == (taken + 1) % SWEEP_EVERY
  {
  }

  lemma {:induction false} FillSlots(c: Config, l: Limiter, plain: Entries, taken: nat, n: nat)
    requires Usable(c) && taken + n <= c.max && Taken(l, plain, taken)
    ensures Taken(After(c, l, Repeat(Request("a", 0), n)), PlainAfter(c, plain, Repeat(Request("a", 0), n)), taken + n)
    decreases n
  {
    if n > 0 {
      assert Repeat(Request("a", 0), n)[1..] == Repeat(Request("a", 0), n - 1);
      TakeOne(c, l, plain, taken);
      FillSlots(c, Decide(c, l, "a", 0).0, plain["a" := Hit(c, Lookup(plain, "a", 0), 0).0], taken + 1, n - 1);
    }
  }

  /** `n` calls on "b" at a time `now` when "a" has idled too long: the one that makes the call count a multiple of
      512 drops "a"; the limiter without clean-up keeps it. */
  lemma {:induction false} IdleUntilSweep(c: Config, l: Limiter, plain: Entries, now: int, n: nat, e: Entry)
    requires 0 < n && (l.calls % SWEEP_EVERY) + n == SWEEP_EVERY
    requires "a" in l.entries && l.entries["a"] == e && now - e.lastSeen > c.ttl && "a" in plain && plain["a"] == e
    ensures "a" !in After(c, l, Repeat(Request("b", now), n)).entries
    ensures var plain' := PlainAfter(c, plain, Repeat(Request("b", now), n)); "a" in plain' && plain'["a"] == e
    decreases n
  {
    var reqs := Repeat(Request("b", now), n);
    assert reqs[1..] == Repeat(Request("b", now), n - 1);
    var l1 := Decide(c, l, "b", now).0;
    if n > 1 {
      IdleUntilSweep(c, l1, plain["b" := Hit(c, Lookup(plain, "b", now), now).0], now, n - 1, e);
    } else {
      assert l1.calls % SWEEP_EVERY == 0;
    }
  }

  /** With a shorter time to live some run is answered differently: a full window is forgotten and admits again. */
  lemma ShortTtlForgets(c: Config) returns (reqs: seq<Request>)
    requires Usable(c) && c.ttl + 1 < c.window
    ensures InOrder(reqs) && Answers(c, Limiter(map[], 0), reqs) != PlainAnswers(c, map[], reqs)
  {
    var idle := c.ttl + 1;
    var full, wait := Repeat(Request("a", 0), c.max), Repeat(Request("b", idle), SWEEP_EVERY - c.max % SWEEP_EVERY);
    FillSlots(c, Limiter(map[], 0), map[], 0, c.max);
    IdleUntilSweep(c, After(c, Limiter(map[], 0), full), PlainAfter(c, map[], full), idle, SWEEP_EVERY - c.max % SWEEP_EVERY,
                   Entry(0, c.max, 0));
    AfterConcat(c, Limiter(map[], 0), map[], full, wait);
    var last := Request("a", idle);
    AnswersOfLast(c, Limiter(map[], 0), map[], full + wait, last);
    reqs := full + wait + [last];
    assert Answers(c, Limiter(map[], 0), reqs)[|full + wait|] != PlainAnswers(c, map[], reqs)[|full + wait|];
  }

  /** The clean-up is invisible in every run exactly when the time to live is at least the window less one tick. */
  lemma CleanupInvisibleIff(c: Config)
    requires Usable(c)
    ensures (forall reqs :: InOrder(reqs) ==> Answers(c, Limiter(map[], 0), reqs) == PlainAnswers(c, map[], reqs))
            <==> c.ttl + 1 >= c.window
  {
    if c.ttl + 1 >= c.window {
      forall reqs | InOrder(reqs) ensures Answers(c, Limiter(map[], 0), reqs) == PlainAnswers(c, map[], reqs) {
        CleanupIsInvisible(c, reqs);
      }
    } else {
      var reqs := ShortTtlForgets(c);
    }
  }

  // ----- The rate -----

  /** The admitted requests on `key` with a time in [from, from + window). */
  function Admitted(c: Config, reqs: seq<Request>, answers: seq<bool>, key: string, from: int): nat
    requires |reqs| == |answers|
  {
    if reqs == [] then 0 else
      (if answers[0] && reqs[0].key == key && from <= reqs[0].now < from + c.window then 1 else 0)
      + Admitted(c, reqs[1..], answers[1..], key, from)
  }

  /** How many requests of the interval can have been admitted so far, by where the current window starts. The
      request that opens a window is inside the interval only if the window opens inside it. */
  ghost predicate Within(c: Config, entries: Entries, key: string, from: int, seen: nat, clock: int) {
    (clock < from ==> seen == 0) &&
    if key !in entries then seen == 0
    else
      var e := entries[key];
      && e.windowStart <= clock && 1 <= e.count <= c.max
      && (e.windowStart < from ==> seen <= e.count - 1)
      && (from <= e.windowStart < from + c.window ==> seen <= c.max - 1 + e.count)
      && seen <= 2 * c.max - 1
  }

  lemma {:induction false} PlainRate(c: Config, entries: Entries, reqs: seq<Request>, key: string, from: int, seen: nat, clock: int)
    requires Usable(c) && InOrder(reqs) && (reqs != [] ==> clock <= reqs[0].now)
    requires Within(c, entries, key, from, seen, clock)
    ensures seen + Admitted(c, reqs, PlainAnswers(c, entries, reqs), key, from) <= 2 * c.max - 1
    decreases |reqs|
  {
    if reqs != [] {
      var r := reqs[0];
      var (e, ok) := Hit(c, Lookup(entries, r.key, r.now), r.now);
      var one := if ok && r.key == key && from <= r.now < from + c.window then 1 else 0;
      PlainRate(c, entries[r.key := e], reqs[1..], key, from, seen + one, r.now);
    }
  }

  /** Over any run with a clock that does not go back, an interval as long as a window admits at most 2 max - 1
      calls per key. */
  lemma RateBound(c: Config, reqs: seq<Request>, key: string, from: int)
    requires Usable(c) && c.ttl + 1 >= c.window && InOrder(reqs)
    ensures Admitted(c, reqs, Answers(c, Limiter(map[], 0), reqs), key, from) <= 2 * c.max - 1
  {
    CleanupIsInvisible(c, reqs);
    PlainRate(c, map[], reqs, key, from, 0, if reqs == [] then 0 else reqs[0].now);
  }

  // ----- No call is refused while a slot is free -----

  /** When the window of the last request on `key` opened: with the first request, or the first after the window before. */
  function Opening(c: Config, reqs: seq<Request>, key: string): Option<int> {
    if reqs == [] then None else
      var last, before := reqs[|reqs| - 1], Opening(c, reqs[..|reqs| - 1], key);
      if last.key != key then before
      else if before.Some? && last.now < before.value + c.window then before
      else Some(last.now)
  }

  lemma {:induction false} AdmittedSnoc(c: Config, reqs: seq<Request>, answers: seq<bool>, r: Request, ok: bool, key: string, from: int)
    requires |reqs| == |answers|
    ensures Admitted(c, reqs + [r], answers + [ok], key, from)
         == Admitted(c, reqs, answers, key, from) + if ok && r.key == key && from <= r.now < from + c.window then 1 else 0
    decreases |reqs|
  {
    if reqs == [] {
      assert reqs + [r] == [r] && answers + [ok] == [ok];
    } else {
      assert (reqs + [r])[1..] == reqs[1..] + [r] && (answers + [ok])[1..] == answers[1..] + [ok];
      AdmittedSnoc(c, reqs[1..], answers[1..], r, ok, key, from);
    }
  }

  lemma {:induction false} NoneAdmitted(c: Config, reqs: seq<Request>, answers: seq<bool>, key: string, from: int)
    requires |reqs| == |answers| && forall r :: r in reqs && r.key == key ==> r.now < from
    ensures Admitted(c, reqs, answers, key, from) == 0
    decreases |reqs|
  {
    if reqs != [] {
      assert reqs[0] in reqs;
      NoneAdmitted(c, reqs[1..], answers[1..], key, from);
    }
  }

  lemma {:induction false} PlainSnoc(c: Config, entries: Entries, reqs: seq<Request>, last: Request)
    ensures var (e, ok) := Hit(c, Lookup(PlainAfter(c, entries, reqs), last.key, last.now), last.now);
      && PlainAnswers(c, entries, reqs + [last]) == PlainAnswers(c, entries, reqs) + [ok]
      && PlainAfter(c, entries, reqs + [last]) == PlainAfter(c, entries, reqs)[last.key := e]
    decreases |reqs|
  {
    hide Hit;
    if reqs == [] {
      assert reqs + [last] == [last];
    } else {
      assert (reqs + [last])[1..] == reqs[1..] + [last];
      PlainSnoc(c, entries[reqs[0].key := Hit(c, Lookup(entries, reqs[0].key, reqs[0].now), reqs[0].now).0], reqs[1..], last);
    }
  }

  /** The entry of a key is the account of its current window. */
  ghost predicate Account(c: Config, entries: Entries, reqs: seq<Request>, answers: seq<bool>, key: string)
    requires |reqs| == |answers|
  {
    match Opening(c, reqs, key)
    case None => key !in entries && forall r :: r in reqs ==> r.key != key
    case Some(from) =>
      && key in entries && entries[key].windowStart == from
      && 1 <= entries[key].count == Admitted(c, reqs, answers, key, from) <= c.max
      && forall r :: r in reqs && r.key == key ==> r.now < from + c.window
  }

  lemma {:induction false} AccountsKept(c: Config, reqs: seq<Request>, key: string)
    requires Usable(c) && InOrder(reqs)
    ensures Account(c, PlainAfter(c, map[], reqs), reqs, PlainAnswers(c, map[], reqs), key)
    decreases |reqs|
  {
    if reqs != [] {
      var before, last := reqs[..|reqs| - 1], reqs[|reqs| - 1];
      assert reqs == before + [last];
      AccountsKept(c, before, key);
      PlainSnoc(c, map[], before, last);
      AccountStep(c, PlainAfter(c, map[], before), before, PlainAnswers(c, map[], before), last, key);
    }
  }

  lemma AccountStep(c: Config, entries: Entries, reqs: seq<Request>, answers: seq<bool>, last: Request, key: string)
    requires Usable(c) && InOrder(reqs + [last]) && |reqs| == |answers| && Account(c, entries, reqs, answers, key)
    ensures var (e, ok) := Hit(c, Lookup(entries, last.key, last.now), last.now);
      Account(c, entries[last.key := e], reqs + [last], answers + [ok], key)
  {
    var (e, ok) := Hit(c, Lookup(entries, last.key, last.now), last.now);
    assert (reqs + [last])[..|reqs|] == reqs;
    var from := Opening(c, reqs, key);
    var from' := Opening(c, reqs + [last], key);
    if last.key == key {
      if from' == from { InWindow(c, reqs + [last], from.value); } else { NoneAdmitted(c, reqs, answers, key, last.now); }
    }
    if from'.Some? { AdmittedSnoc(c, reqs, answers, last, ok, key, from'.value); }
  }

  /** The last request is not before the opening of its window. */
  lemma InWindow(c: Config, reqs: seq<Request>, from: int)
    requires InOrder(reqs) && reqs != [] && Opening(c, reqs[..|reqs| - 1], reqs[|reqs| - 1].key) == Some(from)
    ensures from <= reqs[|reqs| - 1].now
  {
    var before := reqs[..|reqs| - 1];
    var i := OpenedBy(c, before, reqs[|reqs| - 1].key, from);
    assert reqs[i] == before[i];
  }

  lemma {:induction false} OpenedBy(c: Config, reqs: seq<Request>, key: string, from: int) returns (i: nat)
    requires Opening(c, reqs, key) == Some(from)
    ensures i < |reqs| && reqs[i] == Request(key, from)
    decreases |reqs|
  {
    var last, before := reqs[|reqs| - 1], reqs[..|reqs| - 1];
    if last.key == key && last.now == from {
      i := |reqs| - 1;
    } else {
      i := OpenedBy(c, before, key, from);
    }
  }

  lemma {:induction false} AnswersBegin(c: Config, l: Limiter, reqs: seq<Request>, i: nat)
    requires i <= |reqs|
    ensures Answers(c, l, reqs)[..i] == Answers(c, l, reqs[..i])
    decreases i
  {
    if i > 0 {
      var l' := Decide(c, l, reqs[0].key, reqs[0].now).0;
      AnswersBegin(c, l', reqs[1..], i - 1);
      assert reqs[..i][1..] == reqs[1..][..i - 1];
      hide Decide;
      assert Answers(c, l, reqs)[..i] == [Answers(c, l, reqs)[0]] + Answers(c, l', reqs[1..])[..i - 1];
    }
  }

  /** A call is refused if and only if the window of its key is not over and already has its maximum of admitted calls. */
  lemma RefusedIff(c: Config, reqs: seq<Request>, i: nat)
    requires Usable(c) && c.ttl + 1 >= c.window && InOrder(reqs) && i < |reqs|
    ensures var (answers, r) := (Answers(c, Limiter(map[], 0), reqs), reqs[i]);
      !answers[i] <==>
        && Opening(c, reqs[..i], r.key).Some?
        && r.now < Opening(c, reqs[..i], r.key).value + c.window
        && Admitted(c, reqs[..i], answers[..i], r.key, Opening(c, reqs[..i], r.key).value) == c.max
  {
    var l, r := Limiter(map[], 0), reqs[i];
    var before := reqs[..i];
    AnswersBegin(c, l, reqs, i);
    AnswersBegin(c, l, reqs, i + 1);
    assert reqs[..i + 1] == before + [r];
    assert Answers(c, l, reqs)[i] == Answers(c, l, before + [r])[i];
    CleanupIsInvisible(c, before);
    CleanupIsInvisible(c, before + [r]);
    PlainSnoc(c, map[], before, r);
    AccountsKept(c, before, r.key);
    hide Answers, PlainAnswers, Opening, Admitted, PlainAfter;
  }

  /** So whoever is refused finds the maximum admitted in some window that holds the call. */
  lemma RefusedOnlyWhenFull(c: Config, reqs: seq<Request>, i: nat) returns (from: int)
    requires Usable(c) && c.ttl + 1 >= c.window && InOrder(reqs) && i < |reqs|
    requires !Answers(c, Limiter(map[], 0), reqs)[i]
    ensures from <= reqs[i].now < from + c.window
    ensures Admitted(c, reqs[..i], Answers(c, Limiter(map[], 0), reqs)[..i], reqs[i].key, from) >= c.max
  {
    RefusedIff(c, reqs, i);
    from := Opening(c, reqs[..i], reqs[i].key).value;
    assert reqs[..i + 1][..i] == reqs[..i];
    InWindow(c, reqs[..i + 1], from);
  }
}
