/** No accepted message is stuck: leases lapse, and then one relay whose calls work dispatches every row that is left. */
module DeliveryProgress {
  import opened Domain
  import opened Outbox
  import opened Delivery
  import opened DeliveryInvariants
  import opened Backend
  import opened OutboxRelay

  // ----- Leases lapse -----

  /** No lease reaches further than one lease from now. */
  ghost predicate LeasesShort(s: State) {
    && (forall id :: id in s.db.rows && s.db.rows[id].claim.Claimed? ==> s.db.rows[id].claim.until <= s.now + LEASE)
    && (forall me :: me in s.relays && !s.relays[me].Waiting? ==> s.relays[me].until <= s.now + LEASE)
  }

  /** Work on an item claims nothing, and the relay keeps its lease. */
  lemma ItemClaimsNothing(me: string, db: Db, r: Relay, fault: Fault)
    requires r.Working? && r.todo != []
    ensures var (db', r') := ItemNext(me, db, r, fault);
      && db'.rows.Keys == db.rows.Keys && (!r'.Waiting? ==> r'.until == r.until)
      && forall id :: id in db.rows && db'.rows[id].claim.Claimed? ==> db'.rows[id].claim == db.rows[id].claim
  {
  }

  lemma RelayKeepsShort(s: State, me: string, step: RelayStep)
    requires LeasesShort(s) && Enabled(s, Relayed(me, step))
    ensures LeasesShort(Apply(s, Relayed(me, step)))
  {
    var r := RelayOf(s, me);
    if step.ItemCall? { ItemClaimsNothing(me, s.db, r, step.fault); }
    hide ItemNext, Payloads;
  }

  lemma StepKeepsShort(s: State, a: Action)
    requires LeasesShort(s) && Enabled(s, a)
    ensures LeasesShort(Apply(s, a))
  {
    match a
    case Relayed(me, step) => RelayKeepsShort(s, me, step);
    case Send(i, step) => SenderClaimsNothing(s.outbox, s.now, s.db, SenderOf(s, i), step);
    case _ =>
  }

  lemma SenderClaimsNothing(outbox: bool, now: int, db: Db, pc: Sender, step: SendStep)
    requires SendReady(pc, step)
    ensures var rows := SendNext(outbox, now, db, pc, step).0.rows;
      forall id :: id in rows && rows[id].claim.Claimed? ==> id in db.rows && rows[id].claim == db.rows[id].claim
  {
  }

  lemma {:induction false} RunKeepsShort(s: State, acts: seq<Action>)
    requires LeasesShort(s) && Runs(s, acts)
    ensures LeasesShort(Exec(s, acts))
    decreases |acts|
  {
    hide LeasesShort;
    if acts != [] {
      StepKeepsShort(s, acts[0]);
      hide Enabled, Apply;
      RunKeepsShort(Apply(s, acts[0]), acts[1..]);
    }
  }

  /** From every reachable state, whoever crashed or stalled: once a lease has passed every row still to dispatch can be
      claimed. */
  lemma LeasesLapse(s: State, later: int)
    requires Reachable(s) && s.now + LEASE < later
    ensures Open(s.db.rows, later)
  {
    var outbox: bool, limit: nat, now: int, acts: seq<Action> :|
      Runs(Initial(outbox, limit, now), acts) && s == Exec(Initial(outbox, limit, now), acts);
    assert LeasesShort(Initial(outbox, limit, now));
    hide Runs, Exec, Initial;
    RunKeepsShort(Initial(outbox, limit, now), acts);
  }

  // ----- One relay drains the outbox -----

  /** A relay whose calls work claims a row and finishes it. */
  lemma DispatchesOne(s: State, acts: seq<Action>, me: string, polls: nat, now: int, db: Db, id: string)
    returns (more: seq<Action>, db': Db)
    requires RelayAt(s, acts, me, true, polls, now, db, Waiting) && s.limit > 0
    requires id in db.rows && Claimable(db.rows[id], now) && db.rows[id].payload.message.id == id
    ensures RelayAt(s, more, me, true, polls + 1, now, db', Waiting) && Finished(db.rows, db'.rows, {id})
  {
    hide RelayAt;
    more := RelaySteps(s, acts, me, true, polls, now, db, Waiting, Poll);
    var batch, item := [id], db.rows[id].payload;
    more := RelaySteps(s, more, me, true, polls + 1, now, db, Claiming(now + LEASE), ClaimCall(batch, Ok));
    assert Payloads(db.rows, batch) == [item] && Items(batch) == {id};
    var db1 := db.(rows := ClaimRows(db.rows, {id}, me, now + LEASE));
    more, db' := FinishesOne(s, more, me, polls + 1, now, db1, item, now + LEASE);
    ClaimFinishesNothing(db.rows, {id}, me, now + LEASE, db'.rows);
  }

  /** From the claim on. */
  lemma FinishesOne(s: State, acts: seq<Action>, me: string, polls: nat, now: int, db: Db, item: OutboxMessage, until: int)
    returns (more: seq<Action>, db': Db)
    requires RelayAt(s, acts, me, true, polls, now, db, Working([item], until, FirstStage(item)))
    requires item.message.id in db.rows
    ensures RelayAt(s, more, me, true, polls, now, db', Waiting) && Finished(db.rows, db'.rows, {item.message.id})
  {
    hide RelayAt, Finished;
    var m := item.message;
    more, db' := acts, db;
    if !item.streamAppended {
      more := RelaySteps(s, more, me, true, polls, now, db', Working([item], until, DoAppend), ItemCall(Ok));
      db' := AppendTo(db', m.roomId, m);
      more := RelaySteps(s, more, me, true, polls, now, db', Working([item], until, MarkRead), ItemCall(Ok));
      var copy := db.rows[m.id].payload.(streamAppended := true);
      more := RelaySteps(s, more, me, true, polls, now, db', Working([item], until, MarkWrite(copy)), ItemCall(Ok));
      db' := db'.(rows := SetPayload(db.rows, m.id, copy));
    }
    var marked := db'.rows;
    more := RelaySteps(s, more, me, true, polls, now, db', Working([item], until, DoPublish), ItemCall(Ok));
    db' := Publish(db', m);
    more := RelaySteps(s, more, me, true, polls, now, db', Working([item], until, Dispatch), ItemCall(Ok));
    db' := db'.(rows := SetDispatched(marked, m.id));
    Finishes(db.rows, marked, db'.rows, m.id);
  }

  lemma {:induction false} DispatchesAll(s: State, acts: seq<Action>, me: string, polls: nat, now: int, db: Db)
    returns (more: seq<Action>, end: nat, db': Db)
    requires RelayAt(s, acts, me, true, polls, now, db, Waiting) && s.limit > 0 && Open(db.rows, now)
    requires forall id :: id in db.rows && !db.rows[id].dispatched ==> db.rows[id].payload.message.id == id
    ensures RelayAt(s, more, me, true, end, now, db', Waiting) && Undispatched(db'.rows) == {}
    decreases Undispatched(db.rows)
  {
    hide RelayAt;
    if Undispatched(db.rows) == {} {
      more, end, db' := acts, polls, db;
    } else {
      var id :| id in Undispatched(db.rows);
      more, db' := DispatchesOne(s, acts, me, polls, now, db, id);
      assert Undispatched(db'.rows) == Undispatched(db.rows) - {id};
      more, end, db' := DispatchesAll(s, more, me, polls + 1, now, db');
    }
  }

  lemma {:induction false} AckedStays(s: State, acts: seq<Action>)
    requires Runs(s, acts)
    ensures s.acked <= Exec(s, acts).acked
    decreases |acts|
  {
    if acts != [] {
      assert s.acked <= Apply(s, acts[0]).acked;
      hide Enabled, Apply;
      AckedStays(Apply(s, acts[0]), acts[1..]);
    }
  }

  /** From every reachable state, whatever has failed or crashed before, a single idle relay whose calls work can by itself,
      given time, bring every accepted message into its room's stream and the event stream, and empty the outbox. */
  lemma AcceptedGetsDelivered(s: State, me: string) returns (acts: seq<Action>)
    requires Reachable(s) && RelayOf(s, me).Waiting? && s.limit > 0
    ensures Runs(s, acts) && OnlyRelays(acts, me, true)
    ensures Undispatched(Exec(s, acts).db.rows) == {}
    ensures forall m :: m in s.acked ==> m in Exec(s, acts).db.saved && Delivered(Exec(s, acts).db, m)
  {
    RelayStarts(s, me, true);
    hide RelayAt;
    acts := TimePasses(s, [], me, true, 0, s.now, s.db, Waiting, LEASE + 1);
    LeasesLapse(s, s.now + LEASE + 1);
    ReachableRows(s);
    hide Open, Reachable;
    var end: nat, db: Db;
    acts, end, db := DispatchesAll(s, acts, me, 0, s.now + LEASE + 1, s.db);
    RelayHas(s, acts, me, end, s.now + LEASE + 1, db);
    ReachableGoesOn(s, acts);
    AckedStays(s, acts);
    hide Runs, Exec;
    forall m | m in s.acked ensures m in Exec(s, acts).db.saved && Delivered(Exec(s, acts).db, m) {
      AcceptedNeverLost(Exec(s, acts), m);
      assert m.id !in Undispatched(Exec(s, acts).db.rows);
    }
  }

  lemma ReachableRows(s: State)
    requires Reachable(s)
    ensures forall id :: id in s.db.rows ==> s.db.rows[id].payload.message.id == id
  {
    ReachableInv(s);
    forall id | id in s.db.rows ensures s.db.rows[id].payload.message.id == id {
      assert RowTrue(s.db, id, s.db.rows[id]);
    }
  }

  lemma RelayHas(s: State, acts: seq<Action>, me: string, polls: nat, now: int, db: Db)
    requires RelayAt(s, acts, me, true, polls, now, db, Waiting)
    ensures Runs(s, acts) && OnlyRelays(acts, me, true) && Exec(s, acts).db == db
  {
  }
}
