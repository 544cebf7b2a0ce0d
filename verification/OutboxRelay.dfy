/** `MessageOutboxRelay.Run` as a loop over the stores, proved to be one run of the protocol's relay, and what its
    rounds achieve when nothing fails. */
module OutboxRelay {
  import opened Domain
  import opened Outbox
  import opened Delivery
  import opened DeliveryInvariants
  import opened Backend
  import opened SendMessage

  // ----- Following the protocol -----

  /** From `s`, the steps `acts` of relay `me` and the passing of time lead to these stores at this time, with the
      relay at this point of its code; it has polled `polls` times, and with `up` no call has failed. */
  ghost predicate RelayAt(s: State, acts: seq<Action>, me: string, up: bool, polls: nat, now: int, db: Db, r: Relay) {
    Runs(s, acts) && OnlyRelays(acts, me, up) && Polls(acts) == polls && Rests(s, Exec(s, acts), me, now, db, r)
  }

  ghost predicate Rests(s: State, t: State, me: string, now: int, db: Db, r: Relay) {
    t.db == db && RelayOf(t, me) == r && t.now == now && t.limit == s.limit
  }

  /** The step is the relay's own, no crash, and with `up` no failure. */
  predicate Works(up: bool, step: RelayStep) {
    match step
    case Poll => true
    case ClaimCall(_, fault) => up ==> fault.Ok?
    case ItemCall(fault) => up ==> fault.Ok?
    case RelayCrash => false
  }

  predicate OnlyRelays(acts: seq<Action>, me: string, up: bool) {
    forall a :: a in acts ==> a.Elapse? || (a.Relayed? && a.me == me && Works(up, a.relay))
  }

  function Polls(acts: seq<Action>): nat {
    if acts == [] then 0 else
      var last := acts[|acts| - 1];
      Polls(acts[..|acts| - 1]) + if last.Relayed? && last.relay.Poll? then 1 else 0
  }

  lemma PollsMore(acts: seq<Action>, a: Action)
    ensures Polls(acts + [a]) == Polls(acts) + if a.Relayed? && a.relay.Poll? then 1 else 0
  {
    assert (acts + [a])[..|acts|] == acts;
  }

  lemma RelayStarts(s: State, me: string, up: bool)
    ensures RelayAt(s, [], me, up, 0, s.now, s.db, RelayOf(s, me))
  {
  }

  lemma RelaySteps(s: State, acts: seq<Action>, me: string, up: bool, polls: nat, now: int, db: Db, r: Relay, step: RelayStep)
    returns (more: seq<Action>)
    requires RelayAt(s, acts, me, up, polls, now, db, r) && RelayReady(s.limit, now, db, r, step) && Works(up, step)
    ensures var (db', r') := RelayNext(me, s.limit, now, db, r, step);
      RelayAt(s, more, me, up, if step.Poll? then polls + 1 else polls, now, db', r')
  {
    var a := Relayed(me, step);
    more := acts + [a];
    OneMore(s, acts, a);
    PollsMore(acts, a);
    hide Runs, Exec, RelayNext, RelayReady, Polls;
  }

  lemma TimePasses(s: State, acts: seq<Action>, me: string, up: bool, polls: nat, now: int, db: Db, r: Relay, d: nat)
    returns (more: seq<Action>)
    requires RelayAt(s, acts, me, up, polls, now, db, r)
    ensures RelayAt(s, more, me, up, polls, now + d, db, r)
  {
    more := acts + [Elapse(d)];
    OneMore(s, acts, Elapse(d));
    PollsMore(acts, Elapse(d));
    hide Runs, Exec, Polls;
  }

  // ----- What rounds achieve -----

  /** The rows in `ids` are dispatched; no other row changed. */
  ghost predicate Finished(t: Table, t': Table, ids: set<string>) {
    t'.Keys == t.Keys && forall id :: id in t ==> if id in ids then t'[id].dispatched else t'[id] == t[id]
  }

  /** Every row still to dispatch can be claimed. */
  ghost predicate Open(t: Table, now: int) {
    forall id :: id in t && !t[id].dispatched ==> Claimable(t[id], now)
  }

  function Min(a: nat, b: nat): nat { if a < b then a else b }

  /** A round that finishes a claim of the oldest rows leaves exactly the others, still open. */
  lemma RoundShrinks(outbox: map<string, StoredRow>, t': Table, now: int, now': int, limit: nat, ids: set<string>)
    requires Open(RowsOf(outbox), now) && now <= now'
    requires Oldest(outbox, now, limit, ids) && Finished(RowsOf(outbox), t', ids)
    ensures Undispatched(t') == Undispatched(RowsOf(outbox)) - ids && Open(t', now')
    ensures |ids| == Min(limit, |Undispatched(RowsOf(outbox))|)
    ensures |Undispatched(t')| == |Undispatched(RowsOf(outbox))| - |ids|
  {
    assert Undispatched(RowsOf(outbox)) == Eligible(outbox, now);
    hide Oldest;
    assert Undispatched(t') == Undispatched(RowsOf(outbox)) - ids;
    assert ids <= Eligible(outbox, now) by { OldestAreEligible(outbox, now, limit, ids); }
    assert |ids| == Min(limit, |Eligible(outbox, now)|) by { OldestAreEligible(outbox, now, limit, ids); }
  }

  lemma TickShrinks(outbox: map<string, StoredRow>, t': Table, now: int, limit: nat, batch: seq<string>)
    requires Open(RowsOf(outbox), now) && MayClaim(outbox, limit, now, batch) && Finished(RowsOf(outbox), t', Items(batch))
    ensures Open(t', now)
    ensures var n := |Undispatched(RowsOf(outbox))|; |Undispatched(t')| == n - Min(limit, n)
  {
    RoundShrinks(outbox, t', now, now, limit, Items(batch));
  }

  lemma StaysOpen(t: Table, now: int, now': int)
    requires Open(t, now) && now <= now'
    ensures Open(t, now')
  {
  }

  /** The batch size of the ticker loop. */
  function BatchOf(batchSize: int): (n: nat)
    ensures n > 0
  {
    if batchSize <= 0 then 200 else batchSize
  }

  lemma OldestAreEligible(outbox: map<string, StoredRow>, now: int, limit: nat, ids: set<string>)
    requires Oldest(outbox, now, limit, ids)
    ensures ids <= Eligible(outbox, now) && |ids| == Min(limit, |Eligible(outbox, now)|)
  {
  }

  /** Rows left after `k` rounds of at most `limit` each. */
  function Remaining(n: nat, limit: nat, k: nat): nat {
    if k == 0 then n else var m := Remaining(n, limit, k - 1); m - Min(limit, m)
  }

  /** The number of rounds for `n` rows: `n` over `limit`, rounded up. */
  function RoundsFor(n: nat, limit: nat): nat
    requires limit > 0
  {
    (n + limit - 1) / limit
  }

  lemma {:induction false} RemainingIs(n: nat, limit: nat, k: nat)
    ensures Remaining(n, limit, k) == if k * limit < n then n - k * limit else 0
  {
    if k > 0 {
      RemainingIs(n, limit, k - 1);
      assert k * limit == (k - 1) * limit + limit;
    }
  }

  /** Exactly that many rounds are needed: `k` rounds leave nothing if and only if `k` is at least that. */
  lemma RoundsNeeded(n: nat, limit: nat, k: nat)
    requires limit > 0
    ensures Remaining(n, limit, k) == 0 <==> k >= RoundsFor(n, limit)
  {
    RemainingIs(n, limit, k);
    var c := RoundsFor(n, limit);
    assert c * limit <= n + limit - 1 < c * limit + limit by { Quotient(n + limit - 1, limit); }
    if k >= c { Multiples(c, k, limit); } else { Multiples(k + 1, c, limit); assert (k + 1) * limit == k * limit + limit; }
  }

  lemma Quotient(a: nat, b: nat)
    requires b > 0
    ensures (a / b) * b <= a < (a / b) * b + b
  {
  }

  lemma Multiples(a: nat, b: nat, m: nat)
    requires a <= b
    ensures a * m <= b * m
  {
  }

  /** Marking a row appended, or not, and then dispatched finishes that row. */
  lemma Finishes(t: Table, marked: Table, t': Table, id: string)
    requires id in t && (marked == t || exists payload :: marked == SetPayload(t, id, payload)) && t' == SetDispatched(marked, id)
    ensures Finished(t, t', {id})
  {
  }

  lemma FinishNothing(t: Table)
    ensures Finished(t, t, {})
  {
  }

  lemma FinishMore(t0: Table, t: Table, t': Table, ids: set<string>, id: string)
    requires Finished(t0, t, ids) && Finished(t, t', {id})
    ensures Finished(t0, t', ids + {id})
  {
  }

  lemma KeysOfRows(outbox: map<string, StoredRow>)
    ensures RowsOf(outbox).Keys == outbox.Keys
  {
  }

  lemma ClaimKeepsKeys(t: Table, ids: set<string>, holder: string, until: int)
    ensures ClaimRows(t, ids, holder, until).Keys == t.Keys
  {
  }

  lemma ClaimFinishesNothing(t: Table, ids: set<string>, holder: string, until: int, t': Table)
    requires ids <= t.Keys && Finished(ClaimRows(t, ids, holder, until), t', ids)
    ensures Finished(t, t', ids)
  {
  }

  lemma {:induction false} ItemsCount(s: seq<string>)
    requires Distinct(s)
    ensures |Items(s)| == |s|
  {
    if s == [] {
      assert Items(s) == {};
    } else {
      ItemsCount(s[1..]);
      assert Items(s) == Items(s[1..]) + {s[0]} by {
        assert s == [s[0]] + s[1..];
      }
      assert s[0] !in Items(s[1..]);
    }
  }

  lemma ItemsSnoc(s: seq<string>, i: nat)
    requires i < |s|
    ensures Items(s[..i + 1]) == Items(s[..i]) + {s[i]}
  {
    assert s[..i + 1] == s[..i] + [s[i]];
  }

  lemma Uncons<T>(s: seq<T>, i: nat)
    requires i < |s|
    ensures s[i..] == [s[i]] + s[i + 1..]
  {
  }

  lemma NothingLeft(until: int)
    ensures StartBatch([], until) == Waiting
  {
  }

  /** The rows a claim takes are rows the protocol lets it take. */
  lemma ClaimIsAllowed(outbox: map<string, StoredRow>, limit: nat, now: int, batch: seq<string>)
    requires MayClaim(outbox, limit, now, batch)
    ensures ClaimAllowed(RowsOf(outbox), now, limit, batch)
  {
    ItemsCount(batch);
    OldestAreEligible(outbox, now, limit, Items(batch));
    forall id | id in batch ensures id in RowsOf(outbox) && Claimable(RowsOf(outbox)[id], now) {
      assert id in Items(batch);
    }
  }

  ghost predicate KeyedBy(keys: set<string>, batch: seq<string>, pending: seq<OutboxMessage>) {
    |batch| == |pending| && forall i :: 0 <= i < |batch| ==> batch[i] in keys && pending[i].message.id == batch[i]
  }

  lemma KeyedAt(keys: set<string>, batch: seq<string>, pending: seq<OutboxMessage>, i: nat)
    requires KeyedBy(keys, batch, pending) && i < |pending|
    ensures |batch| == |pending| && batch[i] in keys && pending[i].message.id == batch[i]
  {
  }

  /** What a claim answers is keyed by the ids it claimed. */
  lemma PayloadIds(outbox: map<string, StoredRow>, batch: seq<string>)
    requires Sound(outbox) && forall id :: id in batch ==> id in RowsOf(outbox)
    ensures KeyedBy(outbox.Keys, batch, Payloads(RowsOf(outbox), batch))
  {
    forall i | 0 <= i < |batch| ensures batch[i] in outbox && Payloads(RowsOf(outbox), batch)[i].message.id == batch[i] {
      assert batch[i] in batch;
    }
  }

  // ----- The relay -----

  class MessageOutboxRelay {
    const pg: Postgres
    const valkey: Valkey
    const id: string

    constructor (pg: Postgres, valkey: Valkey, hostname: string)
      ensures this.pg == pg && this.valkey == valkey && id == if hostname == "" then "unknown" else hostname
    {
      this.pg, this.valkey, this.id := pg, valkey, if hostname == "" then "unknown" else hostname;
    }

    /** Gives up on an item for now; whether the claim is really dropped does not matter. */
    method ReleaseClaim(item: OutboxMessage, ghost rest: seq<OutboxMessage>, ghost until: int, now: int, up: bool,
                        ghost s: State, ghost taken: seq<Action>, ghost polls: nat)
      returns (ghost acts: seq<Action>)
      requires Sound(pg.outbox)
      requires RelayAt(s, taken, id, up, polls, now, Stored(pg, valkey), Working([item] + rest, until, Release))
      modifies pg`outbox
      ensures Sound(pg.outbox) && pg.outbox.Keys == old(pg.outbox).Keys
      ensures RelayAt(s, acts, id, up, polls, now, Stored(pg, valkey), StartBatch(rest, until))
    {
      hide RelayAt, RowsOf, Sound, DropClaim;
      ghost var r := Working([item] + rest, until, Release);
      ghost var before := Stored(pg, valkey);
      var released := pg.ReleaseClaim(id, item.message.id, up);
      acts := RelaySteps(s, taken, id, up, polls, now, before, r, ItemCall(released));
      assert r.todo[1..] == rest;
    }

    /** Reads the row, sets the flag and writes it back; two relays may do so at once. */
    method MarkStreamAppended(item: OutboxMessage, ghost rest: seq<OutboxMessage>, ghost until: int, now: int, up: bool,
                              ghost s: State, ghost taken: seq<Action>, ghost polls: nat)
      returns (ok: bool, ghost acts: seq<Action>)
      requires Sound(pg.outbox)
      requires RelayAt(s, taken, id, up, polls, now, Stored(pg, valkey), Working([item] + rest, until, MarkRead))
      modifies pg`outbox
      ensures Sound(pg.outbox) && pg.outbox.Keys == old(pg.outbox).Keys
      ensures RelayAt(s, acts, id, up, polls, now, Stored(pg, valkey),
                      Working([item] + rest, until, if ok then DoPublish else Release))
      ensures up && item.message.id in pg.outbox ==>
        ok && exists payload :: RowsOf(pg.outbox) == SetPayload(RowsOf(old(pg.outbox)), item.message.id, payload)
    {
      hide RelayAt, RowsOf, Sound, SetPayload;
      var read, payload := pg.ReadPayload(item.message.id, up);
      ghost var r := Working([item] + rest, until, MarkRead);
      acts := RelaySteps(s, taken, id, up, polls, now, Stored(pg, valkey), r, ItemCall(read));
      if payload.None? { return false, acts; }
      var copy := payload.value.(streamAppended := true);
      ghost var before := Stored(pg, valkey);
      var written := pg.WritePayload(item.message.id, copy, up);
      acts := RelaySteps(s, acts, id, up, polls, now, before, r.(stage := MarkWrite(copy)), ItemCall(written));
      return written.Ok?, acts;
    }

    /** The body of the loop over a batch. */
    method Relay(item: OutboxMessage, ghost rest: seq<OutboxMessage>, ghost until: int, now: int, up: bool,
                 ghost s: State, ghost taken: seq<Action>, ghost polls: nat)
      returns (ghost acts: seq<Action>)
      requires Sound(pg.outbox)
      requires RelayAt(s, taken, id, up, polls, now, Stored(pg, valkey), StartBatch([item] + rest, until))
      modifies pg`outbox, valkey
      ensures Sound(pg.outbox) && pg.outbox.Keys == old(pg.outbox).Keys
      ensures RelayAt(s, acts, id, up, polls, now, Stored(pg, valkey), StartBatch(rest, until))
      ensures up && item.message.id in pg.outbox ==>
        Finished(RowsOf(old(pg.outbox)), RowsOf(pg.outbox), {item.message.id})
    {
      hide RelayAt, RowsOf, Sound, Finished, SetPayload, SetDispatched;
      ghost var r := Working([item] + rest, until, FirstStage(item));
      ghost var before := Stored(pg, valkey);
      acts := taken;
      if !item.streamAppended {
        var appended := valkey.AppendMessage(item.message.roomId, item.message, up);
        acts := RelaySteps(s, acts, id, up, polls, now, before, r, ItemCall(appended));
        if !appended.Ok? { acts := ReleaseClaim(item, rest, until, now, up, s, acts, polls); return; }
        var ok;
        ok, acts := MarkStreamAppended(item, rest, until, now, up, s, acts, polls);
        if !ok { acts := ReleaseClaim(item, rest, until, now, up, s, acts, polls); return; }
      }
      ghost var marked := RowsOf(pg.outbox);
      acts := PublishAndMark(item, rest, until, now, up, s, acts, polls);
      if up && item.message.id in pg.outbox {
        KeysOfRows(old(pg.outbox));
        Finishes(RowsOf(old(pg.outbox)), marked, RowsOf(pg.outbox), item.message.id);
      }
    }

    method PublishAndMark(item: OutboxMessage, ghost rest: seq<OutboxMessage>, ghost until: int, now: int, up: bool,
                          ghost s: State, ghost taken: seq<Action>, ghost polls: nat)
      returns (ghost acts: seq<Action>)
      requires Sound(pg.outbox)
      requires RelayAt(s, taken, id, up, polls, now, Stored(pg, valkey), Working([item] + rest, until, DoPublish))
      modifies pg`outbox, valkey
      ensures Sound(pg.outbox) && pg.outbox.Keys == old(pg.outbox).Keys
      ensures RelayAt(s, acts, id, up, polls, now, Stored(pg, valkey), StartBatch(rest, until))
      ensures up ==> RowsOf(pg.outbox) == SetDispatched(RowsOf(old(pg.outbox)), item.message.id)
    {
      hide RelayAt, RowsOf, Sound, SetDispatched;
      ghost var r := Working([item] + rest, until, DoPublish);
      assert r.todo[1..] == rest;
      ghost var before := Stored(pg, valkey);
      var published := valkey.PublishMessageCreated(item.message, up);
      acts := RelaySteps(s, taken, id, up, polls, now, before, r, ItemCall(published));
      if !published.Ok? { acts := ReleaseClaim(item, rest, until, now, up, s, acts, polls); return; }
      before := Stored(pg, valkey);
      var dispatched := pg.MarkDispatched(item.message.id, up);
      acts := RelaySteps(s, acts, id, up, polls, now, before, r.(stage := Dispatch), ItemCall(dispatched));
    }

    /** A batch, item after item. */
    method RelayAll(pending: seq<OutboxMessage>, ghost batch: seq<string>, ghost until: int, now: int, up: bool,
                    ghost s: State, ghost taken: seq<Action>, ghost polls: nat)
      returns (ghost acts: seq<Action>)
      requires Sound(pg.outbox) && KeyedBy(pg.outbox.Keys, batch, pending)
      requires RelayAt(s, taken, id, up, polls, now, Stored(pg, valkey), StartBatch(pending, until))
      modifies pg`outbox, valkey
      ensures Sound(pg.outbox)
      ensures RelayAt(s, acts, id, up, polls, now, Stored(pg, valkey), Waiting)
      ensures up ==> Finished(RowsOf(old(pg.outbox)), RowsOf(pg.outbox), Items(batch))
    {
      FinishNothing(RowsOf(pg.outbox));
      assert Items(batch[..0]) == {};
      ghost var keys := pg.outbox.Keys;
      assert |batch| == |pending|;
      hide RelayAt, RowsOf, Sound, Finished, Items, StartBatch, KeyedBy, Stored;
      acts := taken;
      assert pending[0..] == pending;
      for i := 0 to |pending|
        invariant Sound(pg.outbox) && pg.outbox.Keys == keys
        invariant RelayAt(s, acts, id, up, polls, now, Stored(pg, valkey), StartBatch(pending[i..], until))
        invariant up ==> Finished(RowsOf(old(pg.outbox)), RowsOf(pg.outbox), Items(batch[..i]))
      {
        ghost var before := RowsOf(pg.outbox);
        Uncons(pending, i);
        KeyedAt(keys, batch, pending, i);
        acts := Relay(pending[i], pending[i + 1..], until, now, up, s, acts, polls);
        if up { FinishMore(RowsOf(old(pg.outbox)), before, RowsOf(pg.outbox), Items(batch[..i]), batch[i]); }
        ItemsSnoc(batch, i);
      }
      assert batch[..|batch|] == batch && pending[|pending|..] == [];
      NothingLeft(until);
    }

    /** One tick: claim a batch and work through it. When nothing fails it finishes the oldest open rows. */
    method Tick(limit: nat, now: int, up: bool, ghost s: State, ghost taken: seq<Action>, ghost polls: nat)
      returns (ghost acts: seq<Action>, ghost batch: seq<string>)
      requires Sound(pg.outbox) && s.limit == limit > 0
      requires RelayAt(s, taken, id, up, polls, now, Stored(pg, valkey), Waiting)
      modifies pg`outbox, valkey
      ensures Sound(pg.outbox)
      ensures RelayAt(s, acts, id, up, polls + 1, now, Stored(pg, valkey), Waiting)
      ensures MayClaim(old(pg.outbox), limit, now, batch)
      ensures up ==> Finished(RowsOf(old(pg.outbox)), RowsOf(pg.outbox), Items(batch))
    {
      hide RelayAt, RowsOf, Sound, Finished, ClaimRows, MayClaim;
      ghost var before, rows := Stored(pg, valkey), pg.outbox;
      acts := RelaySteps(s, taken, id, up, polls, now, before, Waiting, Poll);
      var claimed, pending;
      claimed, pending, batch := pg.ClaimPending(id, limit, LEASE, now, up);
      ClaimIsAllowed(rows, limit, now, batch);
      acts := RelaySteps(s, acts, id, up, polls + 1, now, before, Claiming(now + LEASE), ClaimCall(batch, claimed));
      if !claimed.Ok? { return; }
      PayloadIds(rows, batch);
      KeysOfRows(rows);
      KeysOfRows(pg.outbox);
      ClaimKeepsKeys(RowsOf(rows), Items(batch), id, now + LEASE);
      acts := RelayAll(pending, batch, now + LEASE, now, up, s, acts, polls + 1);
      if up { ClaimFinishesNothing(RowsOf(rows), Items(batch), id, now + LEASE, RowsOf(pg.outbox)); }
    }

    /** The ticker loop, until it is stopped after some number of ticks. When nothing fails, `n` open rows are gone
        after exactly `n` over the batch size, rounded up, ticks and not before. */
    method Run(batchSize: int, ticks: nat, start: int, up: bool, ghost s: State) returns (now: int, ghost acts: seq<Action>)
      requires Sound(pg.outbox) && s.db == Stored(pg, valkey) && s.limit == BatchOf(batchSize)
      requires RelayOf(s, id) == Waiting && s.now == start
      modifies pg`outbox, valkey
      ensures Sound(pg.outbox)
      ensures RelayAt(s, acts, id, up, ticks, now, Stored(pg, valkey), Waiting)
      ensures up && Open(RowsOf(old(pg.outbox)), s.now) ==>
        var n := |Undispatched(RowsOf(old(pg.outbox)))|;
        && |Undispatched(RowsOf(pg.outbox))| == Remaining(n, BatchOf(batchSize), ticks)
        && (Undispatched(RowsOf(pg.outbox)) == {} <==> ticks >= RoundsFor(n, BatchOf(batchSize)))
    {
      RelayStarts(s, id, up);
      hide RelayAt, RowsOf, Sound, Finished, Open, Oldest, Undispatched, MayClaim;
      var limit := BatchOf(batchSize);
      ghost var n := |Undispatched(RowsOf(pg.outbox))|;
      ghost var draining := up && Open(RowsOf(pg.outbox), start);
      acts := [];
      now := start;
      for tick := 0 to ticks
        invariant Sound(pg.outbox) && RelayAt(s, acts, id, up, tick, now, Stored(pg, valkey), Waiting)
        invariant draining ==> Open(RowsOf(pg.outbox), now)
        invariant draining ==> |Undispatched(RowsOf(pg.outbox))| == Remaining(n, limit, tick)
      {
        var waited: nat :| waited >= 0;
        acts := TimePasses(s, acts, id, up, tick, now, Stored(pg, valkey), Waiting, waited);
        if draining { StaysOpen(RowsOf(pg.outbox), now, now + waited); }
        now := now + waited;
        ghost var rows := pg.outbox;
        ghost var batch;
        acts, batch := Tick(limit, now, up, s, acts, tick);
        if draining { TickShrinks(rows, RowsOf(pg.outbox), now, limit, batch); }
      }
      RoundsNeeded(n, limit, ticks);
    }
  }
}
