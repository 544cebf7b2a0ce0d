/** Leases of the outbox: a claim excludes other relays until it expires, only its holder can give it up, and without
    harmful faults each row is successfully appended and published by relays at most once. */
module DeliveryLeases {
  import opened Domain
  import opened Outbox
  import opened Delivery
  import opened DeliveryInvariants

  // ----- Exclusivity and fencing -----

  /** `a` is a call by `me` to release its claim on row `id`. */
  predicate Releases(s: State, a: Action, me: string, id: string) {
    a.Relayed? && a.me == me && a.relay.ItemCall? && RelayOf(s, me).Working? && RelayOf(s, me).stage.Release?
    && RelayOf(s, me).todo != [] && RelayOf(s, me).todo[0].message.id == id
  }

  predicate Holds(s: State, me: string, until: int, id: string) {
    id in s.db.rows && s.db.rows[id].claim == Claimed(me, until)
  }

  lemma ItemKeepsClaim(me: string, db: Db, r: Relay, fault: Fault, holder: string, until: int, id: string)
    requires r.Working? && r.todo != []
    requires id in db.rows && db.rows[id].claim == Claimed(holder, until)
    requires !(holder == me && r.stage.Release? && r.todo[0].message.id == id)
    ensures var rows := ItemNext(me, db, r, fault).0.rows;
      id in rows && (rows[id].dispatched || rows[id].claim == Claimed(holder, until))
  {
  }

  /** One step leaves an unexpired claim in place unless its holder releases it or the row becomes dispatched; in
      particular another relay's release does not free it. */
  lemma StepKeepsClaim(s: State, a: Action, me: string, until: int, id: string)
    requires Enabled(s, a) && Holds(s, me, until, id) && s.now <= until && !Releases(s, a, me, id)
    ensures var s' := Apply(s, a); Holds(s', me, until, id) || (id in s'.db.rows && s'.db.rows[id].dispatched)
  {
    if a.Relayed? && a.relay.ItemCall? {
      ItemKeepsClaim(a.me, s.db, RelayOf(s, a.me), a.relay.fault, me, until, id);
    }
  }

  lemma ItemKeepsDispatched(me: string, db: Db, r: Relay, fault: Fault, id: string)
    requires r.Working? && r.todo != []
    requires id in db.rows && db.rows[id].dispatched
    ensures var rows := ItemNext(me, db, r, fault).0.rows; id in rows && rows[id].dispatched
  {
  }

  lemma DispatchedStays(s: State, a: Action, id: string)
    requires Enabled(s, a) && id in s.db.rows && s.db.rows[id].dispatched
    ensures id in Apply(s, a).db.rows && Apply(s, a).db.rows[id].dispatched
  {
    if a.Relayed? && a.relay.ItemCall? {
      ItemKeepsDispatched(a.me, s.db, RelayOf(s, a.me), a.relay.fault, id);
    }
  }

  ghost predicate NeverReleases(s: State, acts: seq<Action>, me: string, id: string)
    requires Runs(s, acts)
    decreases |acts|
  {
    acts == [] || (!Releases(s, acts[0], me, id) && NeverReleases(Apply(s, acts[0]), acts[1..], me, id))
  }

  lemma ClockRises(s: State, acts: seq<Action>)
    requires Runs(s, acts)
    ensures s.now <= Exec(s, acts).now
    decreases |acts|
  {
    if acts != [] {
      ClockRises(Apply(s, acts[0]), acts[1..]);
    }
  }

  /** From a claim by `me` on, as long as its lease has not run out and `me` has not released it, the row is still
      claimed by `me` with the same lease, or is dispatched and so never claimed again. */
  lemma {:induction false} LeaseExcludesOthers(s: State, acts: seq<Action>, me: string, until: int, id: string)
    requires Runs(s, acts) && NeverReleases(s, acts, me, id)
    requires Holds(s, me, until, id) || (id in s.db.rows && s.db.rows[id].dispatched)
    requires Exec(s, acts).now <= until
    ensures var s' := Exec(s, acts); Holds(s', me, until, id) || (id in s'.db.rows && s'.db.rows[id].dispatched)
    decreases |acts|
  {
    if acts != [] {
      ClockRises(s, acts);
      var s1 := Apply(s, acts[0]);
      if s.db.rows[id].dispatched {
        DispatchedStays(s, acts[0], id);
      } else {
        StepKeepsClaim(s, acts[0], me, until, id);
      }
      LeaseExcludesOthers(s1, acts[1..], me, until, id);
    }
  }

  /** Fencing: a release by a relay that no longer holds the row changes nothing. */
  lemma StaleReleaseIsHarmless(s: State, me: string, fault: Fault, id: string)
    requires Releases(s, Relayed(me, ItemCall(fault)), me, id)
    requires id in s.db.rows && (s.db.rows[id].claim.Claimed? ==> s.db.rows[id].claim.holder != me)
    ensures Apply(s, Relayed(me, ItemCall(fault))).db == s.db
  {
  }

  /** A release by the holder leaves an undispatched row free for anybody at once. */
  lemma ReleaseFrees(s: State, me: string, fault: Fault, id: string)
    requires Releases(s, Relayed(me, ItemCall(fault)), me, id) && !fault.Lost?
    requires id in s.db.rows && !s.db.rows[id].dispatched && s.db.rows[id].claim.Claimed? && s.db.rows[id].claim.holder == me
    ensures var rows := Apply(s, Relayed(me, ItemCall(fault))).db.rows;
      id in rows && !rows[id].dispatched && rows[id].claim.Unclaimed? && rows[id].payload == s.db.rows[id].payload
  {
  }

  /** What a relay has after a failed append, mark or publish and the release that follows: the row is free for anybody, its
      flags as they were but for a mark that took effect unnoticed, and the relay is at its next item. */
  lemma FailedItemIsFreed(me: string, db: Db, r: Relay, fault: Fault)
    requires r.Working? && r.todo != [] && !fault.Ok? && !r.stage.Dispatch? && !r.stage.Release?
    requires var id := r.todo[0].message.id; id in db.rows && db.rows[id].claim == Claimed(me, r.until)
    ensures var (db1, r1) := ItemNext(me, db, r, fault);
      && r1.Working? && r1.todo != []
      && var ((db2, r2), id) := (ItemNext(me, db1, r1, Ok), r.todo[0].message.id);
         && id in db2.rows && db2.rows[id].claim.Unclaimed? && db2.rows[id].dispatched == db.rows[id].dispatched
         && (db2.rows[id].payload == db.rows[id].payload || (r.stage.MarkWrite? && db2.rows[id].payload == r.stage.copy))
         && r2 == if |r.todo| == 1 then Waiting else Working(r.todo[1..], r.until, FirstStage(r.todo[1]))
  {
  }

  /** A final mark that is lost leaves the row claimed until its lease is over; the relay goes on. */
  lemma LostDispatchKeepsClaim(s: State, me: string)
    requires Enabled(s, Relayed(me, ItemCall(Lost))) && RelayOf(s, me).stage.Dispatch?
    ensures var s', r := Apply(s, Relayed(me, ItemCall(Lost))), RelayOf(s, me);
      && s'.db.rows == s.db.rows
      && RelayOf(s', me) == if |r.todo| == 1 then Waiting else Working(r.todo[1..], r.until, FirstStage(r.todo[1]))
  {
  }

  // ----- Kinds of faults of relays -----

  /** What a relay does next. */
  datatype At = Idles | Claims | Appends | ReadsMark | WritesMark | Publishes | Dispatches | GivesBack

  function AtOf(r: Relay): At {
    match r
    case Waiting => Idles
    case Claiming(_) => Claims
    case Working(_, _, stage) =>
      match stage {
        case DoAppend => Appends
        case MarkRead => ReadsMark
        case MarkWrite(_) => WritesMark
        case DoPublish => Publishes
        case Dispatch => Dispatches
        case Release => GivesBack
      }
  }

  /** A call of a relay that fails in some way; a relay that stops; a lease that ends under a relay at work; rows claimed
      with a lease that is already over. */
  datatype Kind = Fails(at: At, fault: Fault) | Crashes(at: At) | Overruns(at: At) | ClaimsLate

  predicate Ends(r: Relay, now: int, later: int) {
    r.Working? && now <= r.until < later
  }

  /** The kinds of faults a step shows; what senders and backfills suffer is none of them. */
  function Shown(s: State, a: Action): set<Kind>
    requires Enabled(s, a)
  {
    match a
    case Relayed(me, step) =>
      var r := RelayOf(s, me);
      (match step
       case Poll => {}
       case ClaimCall(batch, fault) =>
         if !fault.Ok? then {Fails(Claims, fault)} else if batch != [] && r.until < s.now then {ClaimsLate} else {}
       case ItemCall(fault) => if fault.Ok? then {} else {Fails(AtOf(r), fault)}
       case RelayCrash => {Crashes(AtOf(r))})
    case Elapse(d) => set me | me in s.relays && Ends(s.relays[me], s.now, s.now + d) :: Overruns(AtOf(s.relays[me]))
    case _ => {}
  }

  /** Between a successful append or publish and the mark that records it a relay must not stop, nor fail to write the
      mark or to read the row first; and it must never go on working when its lease is over. Everything else is
      harmless: any failure of a claim, of the append or publish itself or of a release, a mark that only seems to fail,
      and a crash before the append or publish. */
  predicate Harmful(k: Kind) {
    match k
    case Fails(at, fault) => (at.ReadsMark? && !fault.Ok?) || ((at.WritesMark? || at.Dispatches?) && fault.Lost?)
    case Crashes(at) => at.ReadsMark? || at.WritesMark? || at.Dispatches?
    case Overruns(at) => !at.Idles? && !at.Claims?
    case ClaimsLate => true
  }

  /** The run shows only harmless kinds and these. */
  ghost predicate OnlyKinds(s: State, acts: seq<Action>, kinds: set<Kind>)
    requires Runs(s, acts)
    decreases |acts|
  {
    acts == [] ||
    ((forall k :: k in Shown(s, acts[0]) && Harmful(k) ==> k in kinds) && OnlyKinds(Apply(s, acts[0]), acts[1..], kinds))
  }

  ghost predicate Harmless(kinds: set<Kind>) {
    forall k :: k in kinds ==> !Harmful(k)
  }

  // ----- At most once without harmful faults -----

  /** No relay is working past its lease. */
  ghost predicate Timely(s: State) {
    forall me :: me in s.relays && s.relays[me].Working? ==> s.now <= s.relays[me].until
  }

  lemma OverrunShows(s: State, d: nat, me: string)
    requires me in s.relays
    ensures Ends(s.relays[me], s.now, s.now + d) ==> Overruns(AtOf(s.relays[me])) in Shown(s, Elapse(d))
  {
  }

  /** A step is timely if it ends no lease under a relay and claims nothing late. */
  lemma StepKeepsTimely(s: State, a: Action)
    requires Timely(s) && Enabled(s, a) && Harmless(Shown(s, a))
    ensures Timely(Apply(s, a))
  {
    var s' := Apply(s, a);
    forall me | me in s'.relays && s'.relays[me].Working? ensures s'.now <= s'.relays[me].until {
      match a
      case Elapse(d) =>
        OverrunShows(s, d, me);
      case Relayed(other, step) =>
        if other == me {
          assert step.ClaimCall? ==> ClaimsLate !in Shown(s, a);
        }
      case _ =>
    }
  }

  /** What relay `me` knows about the rows of its batch while its lease lasts: it alone claims them, none is
      dispatched, and its copies of the flags are current, up to the mark it is writing. */
  ghost predicate Exclusive(t: Table, me: string, r: Relay) {
    r.Working? ==>
      && r.todo != []
      && (forall i, j :: 0 <= i < j < |r.todo| ==> r.todo[i].message.id != r.todo[j].message.id)
      && (forall item :: item in r.todo ==> Owned(t, me, r.until, item.message.id))
      && (forall k :: 0 < k < |r.todo| ==> r.todo[k].streamAppended == t[r.todo[k].message.id].payload.streamAppended)
      && HeadCurrent(t, r.todo[0].message.id, r.stage)
  }

  predicate Owned(t: Table, me: string, until: int, id: string) {
    id in t && !t[id].dispatched && t[id].claim == Claimed(me, until)
  }

  predicate HeadCurrent(t: Table, id: string, stage: Stage)
    requires id in t
  {
    match stage
    case DoAppend => !t[id].payload.streamAppended
    case MarkRead => true
    case MarkWrite(copy) => copy.streamAppended
    case DoPublish => t[id].payload.streamAppended
    case Dispatch => true
    case Release => true
  }

  /** The relay has appended or published a row and not yet recorded it. */
  predicate Marks(r: Relay) {
    r.Working? && (r.stage.MarkRead? || r.stage.MarkWrite? || r.stage.Dispatch?)
  }

  /** `me` has appended row `id` but not yet marked it. */
  predicate Marking(s: State, me: string, id: string) {
    me in s.relays && s.relays[me].Working? && s.relays[me].todo != [] && s.relays[me].todo[0].message.id == id
    && (s.relays[me].stage.MarkRead? || s.relays[me].stage.MarkWrite?)
  }

  /** `me` has published row `id` but not yet marked it dispatched. */
  predicate Dispatching(s: State, me: string, id: string) {
    me in s.relays && s.relays[me].Working? && s.relays[me].todo != [] && s.relays[me].todo[0].message.id == id
    && s.relays[me].stage.Dispatch?
  }

  ghost predicate AppendedOnce(s: State, id: string) {
    && s.appendOks[id] <= 1
    && (s.appendOks[id] == 1 ==>
          id in s.db.rows && (s.db.rows[id].payload.streamAppended || exists me :: Marking(s, me, id)))
  }

  ghost predicate PublishedOnce(s: State, id: string) {
    && s.publishOks[id] <= 1
    && (s.publishOks[id] == 1 ==> id in s.db.rows && (s.db.rows[id].dispatched || exists me :: Dispatching(s, me, id)))
  }

  ghost predicate Orderly(s: State) {
    && (forall me :: me in s.relays ==> Exclusive(s.db.rows, me, s.relays[me]))
    && (forall id :: AppendedOnce(s, id))
    && (forall id :: PublishedOnce(s, id))
  }

  /** A change of the table that leaves a relay's rows as they are leaves its knowledge true. */
  lemma ExclusiveKept(t: Table, t': Table, me: string, r: Relay)
    requires Exclusive(t, me, r)
    requires r.Working? ==> forall id :: id in t && Owned(t, me, r.until, id) ==> id in t' && t'[id] == t[id]
    ensures Exclusive(t', me, r)
  {
    if r.Working? {
      forall item | item in r.todo ensures Owned(t', me, r.until, item.message.id) && t'[item.message.id] == t[item.message.id] {
        assert Owned(t, me, r.until, item.message.id);
      }
      assert r.todo[0] in r.todo;
      forall k | 0 < k < |r.todo| ensures r.todo[k].streamAppended == t'[r.todo[k].message.id].payload.streamAppended {
        assert r.todo[k] in r.todo;
      }
    }
  }

  /** The relay goes on to its next item; the table changed at most at the item it leaves. */
  lemma TailExclusive(t: Table, t': Table, me: string, r: Relay)
    requires r.Working? && Exclusive(t, me, r)
    requires forall id :: id in t && id != r.todo[0].message.id ==> id in t' && t'[id] == t[id]
    ensures Exclusive(t', me, NextItem(r))
  {
    var rest := r.todo[1..];
    forall k | 0 <= k < |rest|
      ensures Owned(t', me, r.until, rest[k].message.id)
      ensures rest[k].streamAppended == t'[rest[k].message.id].payload.streamAppended
    {
      assert rest[k] == r.todo[k + 1] && r.todo[k + 1] in r.todo;
      assert Owned(t, me, r.until, rest[k].message.id);
    }
  }

  /** The relay stays on its head item; the table changed at most there. */
  lemma HeadExclusive(t: Table, t': Table, me: string, r: Relay, stage: Stage)
    requires r.Working? && Exclusive(t, me, r)
    requires forall id :: id in t && id != r.todo[0].message.id ==> id in t' && t'[id] == t[id]
    requires Owned(t', me, r.until, r.todo[0].message.id) && HeadCurrent(t', r.todo[0].message.id, stage)
    ensures Exclusive(t', me, r.(stage := stage))
  {
    forall k | 0 <= k < |r.todo|
      ensures Owned(t', me, r.until, r.todo[k].message.id)
      ensures k > 0 ==> r.todo[k].streamAppended == t'[r.todo[k].message.id].payload.streamAppended
    {
      assert r.todo[k] in r.todo;
      assert Owned(t, me, r.until, r.todo[k].message.id);
    }
  }

  /** The relay's own call: its knowledge stays true, and only the row at its head may change. */
  lemma ItemStaysExclusive(me: string, db: Db, r: Relay, fault: Fault)
    requires r.Working? && Exclusive(db.rows, me, r)
    ensures var (db', r') := ItemNext(me, db, r, fault);
      && Exclusive(db'.rows, me, r')
      && db'.rows.Keys == db.rows.Keys
      && (forall id :: id in db.rows && id != r.todo[0].message.id ==> db'.rows[id] == db.rows[id])
  {
    assert r.todo[0] in r.todo;
    assert Owned(db.rows, me, r.until, r.todo[0].message.id);
    var (db', r') := ItemNext(me, db, r, fault);
    if r.stage.Dispatch? || r.stage.Release? {
      TailExclusive(db.rows, db'.rows, me, r);
    } else {
      HeadExclusive(db.rows, db'.rows, me, r, r'.stage);
    }
  }

  /** Another relay's call leaves this one's knowledge true. */
  lemma OthersStayExclusive(s: State, me: string, fault: Fault, other: string)
    requires Orderly(s) && other in s.relays && other != me
    requires Enabled(s, Relayed(me, ItemCall(fault))) && Harmless(Shown(s, Relayed(me, ItemCall(fault))))
    ensures Exclusive(Apply(s, Relayed(me, ItemCall(fault))).db.rows, other, s.relays[other])
  {
    var r := RelayOf(s, me);
    assert me in s.relays;
    assert Exclusive(s.db.rows, me, r);
    ItemStaysExclusive(me, s.db, r, fault);
    assert r.todo[0] in r.todo;
    assert Owned(s.db.rows, me, r.until, r.todo[0].message.id);
    ExclusiveKept(s.db.rows, Apply(s, Relayed(me, ItemCall(fault))).db.rows, other, s.relays[other]);
  }

  lemma ItemKeepsExclusive(s: State, me: string, fault: Fault)
    requires Orderly(s)
    requires Enabled(s, Relayed(me, ItemCall(fault))) && Harmless(Shown(s, Relayed(me, ItemCall(fault))))
    ensures var s' := Apply(s, Relayed(me, ItemCall(fault)));
      forall x :: x in s'.relays ==> Exclusive(s'.db.rows, x, s'.relays[x])
  {
    var s' := Apply(s, Relayed(me, ItemCall(fault)));
    assert me in s.relays;
    ItemStaysExclusive(me, s.db, RelayOf(s, me), fault);
    forall x | x in s'.relays ensures Exclusive(s'.db.rows, x, s'.relays[x]) {
      if x != me {
        OthersStayExclusive(s, me, fault, x);
      }
    }
  }

  /** Two relays never work on the same row. */
  lemma SoleOwner(s: State, me: string, other: string, item: OutboxMessage, item': OutboxMessage)
    requires Orderly(s) && me in s.relays && other in s.relays
    requires s.relays[me].Working? && item in s.relays[me].todo
    requires s.relays[other].Working? && item' in s.relays[other].todo
    requires item.message.id == item'.message.id
    ensures me == other
  {
    assert Exclusive(s.db.rows, me, s.relays[me]) && Exclusive(s.db.rows, other, s.relays[other]);
    assert Owned(s.db.rows, me, s.relays[me].until, item.message.id);
    assert Owned(s.db.rows, other, s.relays[other].until, item'.message.id);
  }

  lemma ItemAppendsOnce(s: State, me: string, fault: Fault, id: string)
    requires Orderly(s)
    requires Enabled(s, Relayed(me, ItemCall(fault))) && Harmless(Shown(s, Relayed(me, ItemCall(fault))))
    ensures AppendedOnce(Apply(s, Relayed(me, ItemCall(fault))), id)
  {
    var s' := Apply(s, Relayed(me, ItemCall(fault)));
    var r := RelayOf(s, me);
    assert me in s.relays && Exclusive(s.db.rows, me, r);
    ItemStaysExclusive(me, s.db, r, fault);
    assert AppendedOnce(s, id);
    assert r.todo[0] in r.todo;
    if id != r.todo[0].message.id {
      assert s'.appendOks[id] == s.appendOks[id];
      if s.appendOks[id] == 1 && !s.db.rows[id].payload.streamAppended {
        var other :| Marking(s, other, id);
        assert Marking(s', other, id);
      }
    } else {
      forall other | Marking(s, other, id) ensures other == me {
        assert s.relays[other].todo[0] in s.relays[other].todo;
        SoleOwner(s, me, other, r.todo[0], s.relays[other].todo[0]);
      }
      assert Owned(s.db.rows, me, r.until, id);
      if r.stage.DoAppend? {
        assert s.appendOks[id] == 0;
        if fault.Ok? {
          assert Marking(s', me, id);
        }
      } else if r.stage.MarkRead? {
        assert Marking(s', me, id);
      }
    }
  }

  lemma ItemPublishesOnce(s: State, me: string, fault: Fault, id: string)
    requires Orderly(s)
    requires Enabled(s, Relayed(me, ItemCall(fault))) && Harmless(Shown(s, Relayed(me, ItemCall(fault))))
    ensures PublishedOnce(Apply(s, Relayed(me, ItemCall(fault))), id)
  {
    var s' := Apply(s, Relayed(me, ItemCall(fault)));
    var r := RelayOf(s, me);
    assert me in s.relays && Exclusive(s.db.rows, me, r);
    ItemStaysExclusive(me, s.db, r, fault);
    assert PublishedOnce(s, id);
    assert r.todo[0] in r.todo;
    if id != r.todo[0].message.id {
      assert s'.publishOks[id] == s.publishOks[id];
      if s.publishOks[id] == 1 && !s.db.rows[id].dispatched {
        var other :| Dispatching(s, other, id);
        assert Dispatching(s', other, id);
      }
    } else {
      forall other | Dispatching(s, other, id) ensures other == me {
        assert s.relays[other].todo[0] in s.relays[other].todo;
        SoleOwner(s, me, other, r.todo[0], s.relays[other].todo[0]);
      }
      assert Owned(s.db.rows, me, r.until, id);
      if r.stage.DoPublish? {
        assert s.publishOks[id] == 0;
        if fault.Ok? {
          assert Dispatching(s', me, id);
        }
      }
    }
  }

  lemma FreshBatchExclusive(t: Table, me: string, now: int, limit: nat, until: int, batch: seq<string>)
    requires ClaimAllowed(t, now, limit, batch)
    requires forall id :: id in t ==> t[id].payload.message.id == id
    ensures Exclusive(ClaimRows(t, Items(batch), me, until), me, StartBatch(Payloads(t, batch), until))
  {
    var t' := ClaimRows(t, Items(batch), me, until);
    var todo := Payloads(t, batch);
    forall k | 0 <= k < |todo|
      ensures todo[k].message.id == batch[k] && Owned(t', me, until, batch[k]) && todo[k] == t'[batch[k]].payload
    {
      assert batch[k] in batch;
      assert Claimable(t[batch[k]], now);
    }
  }

  /** A claim takes nothing from a relay whose lease has not run out. */
  lemma ClaimSparesOthers(t: Table, me: string, now: int, limit: nat, until: int, batch: seq<string>, other: string, r: Relay)
    requires ClaimAllowed(t, now, limit, batch) && Exclusive(t, other, r) && (r.Working? ==> now <= r.until)
    ensures Exclusive(ClaimRows(t, Items(batch), me, until), other, r)
  {
    var t' := ClaimRows(t, Items(batch), me, until);
    if r.Working? {
      forall id | id in t && Owned(t, other, r.until, id) ensures id in t' && t'[id] == t[id] {
        assert !Claimable(t[id], now);
      }
    }
    ExclusiveKept(t, t', other, r);
  }

  lemma ClaimKeepsExclusive(s: State, me: string, batch: seq<string>, fault: Fault)
    requires StoreOk(s.db) && Orderly(s) && Timely(s) && Enabled(s, Relayed(me, ClaimCall(batch, fault)))
    ensures var s' := Apply(s, Relayed(me, ClaimCall(batch, fault)));
      forall x :: x in s'.relays ==> Exclusive(s'.db.rows, x, s'.relays[x])
  {
    var s' := Apply(s, Relayed(me, ClaimCall(batch, fault)));
    var until := RelayOf(s, me).until;
    forall id | id in s.db.rows ensures s.db.rows[id].payload.message.id == id { assert RowTrue(s.db, id, s.db.rows[id]); }
    FreshBatchExclusive(s.db.rows, me, s.now, s.limit, until, batch);
    forall x | x in s'.relays && x != me ensures Exclusive(s'.db.rows, x, s'.relays[x]) {
      ClaimSparesOthers(s.db.rows, me, s.now, s.limit, until, batch, x, s.relays[x]);
    }
  }

  /** A step that leaves the flags of every row, the relays at work and the counts alone keeps the counts right. */
  lemma CountsKept(s: State, s': State, id: string)
    requires AppendedOnce(s, id) && PublishedOnce(s, id)
    requires s'.appendOks == s.appendOks && s'.publishOks == s.publishOks
    requires forall x :: x in s.db.rows ==> x in s'.db.rows && s'.db.rows[x].payload == s.db.rows[x].payload
                                             && s'.db.rows[x].dispatched == s.db.rows[x].dispatched
    requires forall me :: me in s.relays && Marks(s.relays[me]) ==> me in s'.relays && s'.relays[me] == s.relays[me]
    ensures AppendedOnce(s', id) && PublishedOnce(s', id)
  {
    if s.appendOks[id] == 1 && !s.db.rows[id].payload.streamAppended {
      var me :| Marking(s, me, id);
      assert Marking(s', me, id);
    }
    if s.publishOks[id] == 1 && !s.db.rows[id].dispatched {
      var me :| Dispatching(s, me, id);
      assert Dispatching(s', me, id);
    }
  }

  /** Every step but a relay's work on an item: rows keep their flags and relays about to mark stay where they are. */
  lemma OtherStepsKeepCounts(s: State, a: Action, id: string)
    requires Orderly(s) && Enabled(s, a) && Harmless(Shown(s, a)) && !(a.Relayed? && a.relay.ItemCall?)
    ensures AppendedOnce(Apply(s, a), id) && PublishedOnce(Apply(s, a), id)
  {
    var s' := Apply(s, a);
    assert s'.appendOks == s.appendOks && s'.publishOks == s.publishOks;
    if a.Relayed? && a.relay.RelayCrash? {
      assert Crashes(AtOf(RelayOf(s, a.me))) in Shown(s, a);
    }
    CountsKept(s, s', id);
  }

  lemma OtherStepsKeepExclusive(s: State, a: Action)
    requires Orderly(s) && Enabled(s, a) && Harmless(Shown(s, a))
    requires !(a.Relayed? && (a.relay.ItemCall? || a.relay.ClaimCall?))
    ensures forall me :: me in Apply(s, a).relays ==> Exclusive(Apply(s, a).db.rows, me, Apply(s, a).relays[me])
  {
    var s' := Apply(s, a);
    assert forall id :: id in s.db.rows ==> id in s'.db.rows && s'.db.rows[id] == s.db.rows[id];
    forall me | me in s'.relays ensures Exclusive(s'.db.rows, me, s'.relays[me]) {
      if me in s.relays && s'.relays[me] == s.relays[me] {
        ExclusiveKept(s.db.rows, s'.db.rows, me, s.relays[me]);
      }
    }
  }

  lemma StepKeepsOrder(s: State, a: Action)
    requires StoreOk(s.db) && Orderly(s) && Timely(s) && Enabled(s, a) && Harmless(Shown(s, a))
    ensures Orderly(Apply(s, a))
  {
    var s' := Apply(s, a);
    forall id ensures AppendedOnce(s', id) && PublishedOnce(s', id) {
      if a.Relayed? && a.relay.ItemCall? {
        ItemAppendsOnce(s, a.me, a.relay.fault, id);
        ItemPublishesOnce(s, a.me, a.relay.fault, id);
      } else {
        OtherStepsKeepCounts(s, a, id);
      }
    }
    if a.Relayed? && a.relay.ItemCall? {
      ItemKeepsExclusive(s, a.me, a.relay.fault);
    } else if a.Relayed? && a.relay.ClaimCall? {
      ClaimKeepsExclusive(s, a.me, a.relay.batch, a.relay.fault);
    } else {
      OtherStepsKeepExclusive(s, a);
    }
  }

  lemma {:induction false} RunKeepsOrder(s: State, acts: seq<Action>, kinds: set<Kind>)
    requires Inv(s) && Orderly(s) && Timely(s) && Runs(s, acts) && OnlyKinds(s, acts, kinds) && Harmless(kinds)
    ensures Orderly(Exec(s, acts)) && Timely(Exec(s, acts))
    decreases |acts|
  {
    hide Inv, Orderly, Timely, Shown;
    if acts != [] {
      StepKeepsInv(s, acts[0]);
      InvStore(s);
      StepKeepsTimely(s, acts[0]);
      StepKeepsOrder(s, acts[0]);
      hide Enabled, Apply;
      RunKeepsOrder(Apply(s, acts[0]), acts[1..], kinds);
    }
  }

  lemma InvStore(s: State)
    requires Inv(s)
    ensures StoreOk(s.db)
  {
  }

  /** From an empty system, in every run without harmful faults of relays, relays successfully append each message at most
      once and publish it at most once, and no two of them ever hold the same row; senders and callers may crash and
      fail as they like. */
  lemma RelayedAtMostOnce(outbox: bool, limit: nat, now: int, acts: seq<Action>, kinds: set<Kind>, id: string)
    requires Runs(Initial(outbox, limit, now), acts) && OnlyKinds(Initial(outbox, limit, now), acts, kinds) && Harmless(kinds)
    ensures var s := Exec(Initial(outbox, limit, now), acts);
      && s.appendOks[id] <= 1 && s.publishOks[id] <= 1
      && (forall me, other, item, item' ::
            me in s.relays && s.relays[me].Working? && item in s.relays[me].todo && item.message.id == id
            && other in s.relays && s.relays[other].Working? && item' in s.relays[other].todo && item'.message.id == id
            ==> me == other)
  {
    var s0 := Initial(outbox, limit, now);
    assert Inv(s0);
    RunKeepsOrder(s0, acts, kinds);
    var s := Exec(s0, acts);
    assert AppendedOnce(s, id) && PublishedOnce(s, id);
    forall me, other, item, item' |
      me in s.relays && s.relays[me].Working? && item in s.relays[me].todo && item.message.id == id
      && other in s.relays && s.relays[other].Working? && item' in s.relays[other].todo && item'.message.id == id
      ensures me == other
    {
      SoleOwner(s, me, other, item, item');
    }
  }
}
