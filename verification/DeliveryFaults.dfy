/** Every harmful kind of fault of a relay really is: for each a run from an empty system that shows no other harmful kind
    and in which relays successfully append or publish some message twice. */
module DeliveryFaults {
  import opened Domain
  import opened Outbox
  import opened Delivery
  import opened DeliveryLeases

  // ----- Runs -----

  /** Two items a batch; one is enough for all but one kind. */
  function Start(): State { Initial(true, 2, 0) }

  /** Some run with no harmful faults but of these kinds leads to `t`. */
  ghost predicate Leads(kinds: set<Kind>, t: State) {
    exists acts :: Runs(Start(), acts) && OnlyKinds(Start(), acts, kinds) && Exec(Start(), acts) == t
  }

  ghost predicate ShowsOnly(s: State, a: Action, kinds: set<Kind>)
    requires Enabled(s, a)
  {
    forall k :: k in Shown(s, a) && Harmful(k) ==> k in kinds
  }

  lemma {:induction false} OneMore(kinds: set<Kind>, s: State, acts: seq<Action>, a: Action)
    requires Runs(s, acts) && OnlyKinds(s, acts, kinds)
    requires Enabled(Exec(s, acts), a) && ShowsOnly(Exec(s, acts), a, kinds)
    ensures Runs(s, acts + [a]) && OnlyKinds(s, acts + [a], kinds) && Exec(s, acts + [a]) == Apply(Exec(s, acts), a)
    decreases |acts|
  {
    hide Enabled, Shown, Apply, Harmful;
    if acts == [] {
      assert (acts + [a])[1..] == [];
    } else {
      assert (acts + [a])[1..] == acts[1..] + [a];
      OneMore(kinds, Apply(s, acts[0]), acts[1..], a);
    }
  }

  lemma Goes(kinds: set<Kind>, t: State, a: Action)
    requires Leads(kinds, t) && Enabled(t, a) && ShowsOnly(t, a, kinds)
    ensures Leads(kinds, Apply(t, a))
  {
    hide Enabled, Shown, Apply, OnlyKinds, Runs, Exec, ShowsOnly, Start;
    var acts :| Runs(Start(), acts) && OnlyKinds(Start(), acts, kinds) && Exec(Start(), acts) == t;
    OneMore(kinds, Start(), acts, a);
    assert Runs(Start(), acts + [a]);
  }

  /** A relay works on its item without a fault. */
  lemma Works(kinds: set<Kind>, t: State, me: string)
    requires Leads(kinds, t) && RelayOf(t, me).Working? && RelayOf(t, me).todo != []
    ensures Leads(kinds, Apply(t, Relayed(me, ItemCall(Ok))))
  {
    hide Leads;
    Goes(kinds, t, Relayed(me, ItemCall(Ok)));
  }

  // ----- Rows in the outbox -----

  function Order(id: string): Command { Command("room", "user", "t", id, "") }

  function Written(id: string): Message { MakeMessage(Order(id), id, 0) }

  /** What relays see of two states is the same but for the rows. */
  ghost predicate SameButRows(t: State, u: State) {
    && t.outbox == u.outbox && t.limit == u.limit && t.now == u.now && t.relays == u.relays
    && t.appendOks == u.appendOks && t.publishOks == u.publishOks
  }

  lemma WrittenIsValid(id: string)
    requires id != ""
    ensures ValidMessage(Written(id))
  {
    var text := Written(id).content;
    assert text[0] == 't' && !IsSpace(text[0]) && text[1..] == [];
    assert ByteLength(text) == 1;
  }

  /** A sender has passed the checks. */
  lemma Passes(kinds: set<Kind>, t: State, i: nat, id: string) returns (u: State)
    requires Leads(kinds, t) && i !in t.senders && id != "" && id !in t.used && KeyOf(Written(id)) !in t.db.dedup && t.now == 0
    ensures Leads(kinds, u) && u == t.(senders := t.senders[i := Saving(Written(id))], used := t.used + {id})
  {
    hide Leads, RelayNext;
    Goes(kinds, t, Send(i, Begin(Order(id), true)));
    var t1 := t.(senders := t.senders[i := CheckExists(Order(id))]);
    Goes(kinds, t1, Send(i, ExistsCall(Ok)));
    var t2 := t.(senders := t.senders[i := LoadRoom(Order(id))]);
    assert Apply(t1, Send(i, ExistsCall(Ok))).senders == t2.senders;
    Goes(kinds, t2, Send(i, RoomCall(Some({"user"}), id)));
    WrittenIsValid(id);
    hide ValidMessage;
    u := t.(senders := t.senders[i := Saving(Written(id))], used := t.used + {id});
    assert Apply(t2, Send(i, RoomCall(Some({"user"}), id))).senders == u.senders;
  }

  /** A sender has saved its message. */
  lemma Saves(kinds: set<Kind>, t: State, i: nat, id: string) returns (u: State)
    requires Leads(kinds, t) && i !in t.senders && id != "" && id !in t.used && KeyOf(Written(id)) !in t.db.dedup && t.now == 0
    ensures Leads(kinds, u) && SameButRows(t, u) && u.db.rows == t.db.rows && u.senders == t.senders[i := Appending(Written(id))]
    ensures u.used == t.used + {id} && u.db.dedup == t.db.dedup + {KeyOf(Written(id))}
  {
    u := Passes(kinds, t, i, id);
    hide Leads;
    Goes(kinds, u, Send(i, SaveCall(Ok)));
    u := Apply(u, Send(i, SaveCall(Ok)));
    assert u.senders == t.senders[i := Appending(Written(id))];
  }

  /** It falls back on the outbox because it could not append, or could not publish. */
  lemma FallsBack(kinds: set<Kind>, t: State, i: nat, m: Message, appended: bool) returns (u: State)
    requires Leads(kinds, t) && SenderOf(t, i) == Appending(m) && t.outbox
    ensures Leads(kinds, u) && SameButRows(t, u) && u.senders == t.senders[i := Enqueueing(m, appended)]
    ensures u.db.rows == t.db.rows && u.used == t.used && u.db.dedup == t.db.dedup
  {
    hide Leads, ValidMessage;
    if appended {
      Goes(kinds, t, Send(i, AppendCall(Ok)));
      u := Apply(t, Send(i, AppendCall(Ok)));
      Goes(kinds, u, Send(i, PublishCall(Lost)));
      u := Apply(u, Send(i, PublishCall(Lost)));
    } else {
      Goes(kinds, t, Send(i, AppendCall(Lost)));
      u := Apply(t, Send(i, AppendCall(Lost)));
    }
    assert u.senders == t.senders[i := Enqueueing(m, appended)];
  }

  lemma Queues(kinds: set<Kind>, t: State, i: nat, id: string, appended: bool) returns (u: State)
    requires Leads(kinds, t) && i !in t.senders && id != "" && id !in t.used && KeyOf(Written(id)) !in t.db.dedup && t.now == 0
    requires id !in t.db.rows && t.outbox
    ensures Leads(kinds, u) && SameButRows(t, u) && u.senders.Keys == t.senders.Keys + {i}
    ensures u.db.rows == t.db.rows[id := Row(OutboxMessage(Written(id), appended), false, Unclaimed)]
    ensures u.used == t.used + {id} && u.db.dedup == t.db.dedup + {KeyOf(Written(id))}
  {
    u := Saves(kinds, t, i, id);
    u := FallsBack(kinds, u, i, Written(id), appended);
    hide Leads, ValidMessage, KeyOf;
    Goes(kinds, u, Send(i, EnqueueCall(Ok)));
    u := Apply(u, Send(i, EnqueueCall(Ok)));
  }

  lemma QueuesFirst(kinds: set<Kind>, appended: bool) returns (u: State)
    ensures Leads(kinds, u) && SameButRows(Start(), u) && u.senders.Keys == {0} && u.used == {"x"}
    ensures u.db.rows == map["x" := Row(OutboxMessage(Written("x"), appended), false, Unclaimed)]
    ensures u.db.dedup == {KeyOf(Written("x"))}
  {
    assert Runs(Start(), []) && OnlyKinds(Start(), [], kinds) && Exec(Start(), []) == Start();
    hide Leads;
    u := Queues(kinds, Start(), 0, "x", appended);
  }

  // ----- Relays at work -----

  /** The relay has claimed the rows and is about to work on them. */
  function Taken(t: State, me: string, batch: seq<string>, until: int): State
    requires forall id :: id in batch ==> id in t.db.rows
  {
    t.(db := t.db.(rows := ClaimRows(t.db.rows, Items(batch), me, until)),
       relays := t.relays[me := StartBatch(Payloads(t.db.rows, batch), until)])
  }

  lemma Claims(kinds: set<Kind>, t: State, me: string, batch: seq<string>)
    requires Leads(kinds, t) && RelayOf(t, me).Claiming? && ClaimAllowed(t.db.rows, t.now, t.limit, batch)
    requires RelayOf(t, me).until < t.now ==> ClaimsLate in kinds
    ensures Leads(kinds, Taken(t, me, batch, RelayOf(t, me).until))
  {
    hide Leads;
    Goes(kinds, t, Relayed(me, ClaimCall(batch, Ok)));
    assert Apply(t, Relayed(me, ClaimCall(batch, Ok))) == Taken(t, me, batch, RelayOf(t, me).until);
  }

  lemma Takes(kinds: set<Kind>, t: State, me: string, batch: seq<string>)
    requires Leads(kinds, t) && RelayOf(t, me).Waiting? && ClaimAllowed(t.db.rows, t.now, t.limit, batch)
    ensures Leads(kinds, Taken(t, me, batch, t.now + LEASE))
  {
    hide Leads;
    Goes(kinds, t, Relayed(me, Poll));
    var t1 := Apply(t, Relayed(me, Poll));
    assert t1 == t.(relays := t.relays[me := Claiming(t.now + LEASE)]);
    Claims(kinds, t1, me, batch);
    assert Taken(t1, me, batch, t.now + LEASE) == Taken(t, me, batch, t.now + LEASE);
  }

  // ----- Bad ends -----

  ghost predicate AtMostOnce(s: State) {
    forall id :: s.appendOks[id] <= 1 && s.publishOks[id] <= 1
  }

  ghost predicate Repeats(kinds: set<Kind>) {
    exists t :: Leads(kinds, t) && !AtMostOnce(t)
  }

  /** How often relays have done what the row still asks for. */
  function Done(s: State, id: string): nat
    requires id in s.db.rows
  {
    if s.db.rows[id].payload.streamAppended then s.publishOks[id] else s.appendOks[id]
  }

  /** A relay does what a row that can be claimed asks for. */
  lemma DoesOnce(kinds: set<Kind>, t: State, me: string, id: string) returns (u: State)
    requires Leads(kinds, t) && RelayOf(t, me).Waiting? && id in t.db.rows && Claimable(t.db.rows[id], t.now)
    requires t.db.rows[id].payload.message.id == id && t.limit > 0
    ensures Leads(kinds, u) && id in u.db.rows && u.db.rows[id].payload == t.db.rows[id].payload
    ensures Done(u, id) == Done(t, id) + 1
    ensures forall other :: other != me && other in t.relays ==> other in u.relays && u.relays[other] == t.relays[other]
  {
    hide Leads;
    Takes(kinds, t, me, [id]);
    u := Taken(t, me, [id], t.now + LEASE);
    assert Payloads(t.db.rows, [id]) == [t.db.rows[id].payload];
    Works(kinds, u, me);
    u := Apply(u, Relayed(me, ItemCall(Ok)));
  }

  /** What was done is done again. */
  lemma Again(kinds: set<Kind>, t: State, me: string, id: string)
    requires Leads(kinds, t) && RelayOf(t, me).Waiting? && id in t.db.rows && Claimable(t.db.rows[id], t.now)
    requires t.db.rows[id].payload.message.id == id && t.limit > 0 && Done(t, id) > 0
    ensures Repeats(kinds)
  {
    var u := DoesOnce(kinds, t, me, id);
    hide Leads;
    assert u.appendOks[id] > 1 || u.publishOks[id] > 1;
  }

  /** A relay does what another, whose lease is over, goes on to do as well. */
  lemma BothDo(kinds: set<Kind>, t: State, me: string, other: string, id: string)
    requires Leads(kinds, t) && me != other && RelayOf(t, other).Waiting? && id in t.db.rows && Claimable(t.db.rows[id], t.now)
    requires t.db.rows[id].payload.message.id == id && t.limit > 0
    requires var r := RelayOf(t, me);
      r.Working? && r.todo != [] && r.todo[0] == t.db.rows[id].payload && r.stage == FirstStage(r.todo[0])
    ensures Repeats(kinds)
  {
    var u := DoesOnce(kinds, t, other, id);
    hide Leads;
    Works(kinds, u, me);
    var v := Apply(u, Relayed(me, ItemCall(Ok)));
    assert v.appendOks[id] > 1 || v.publishOks[id] > 1;
  }

  // ----- Up to the mark -----

  /** Relay `a` alone is at work, on the one row, which it has claimed. */
  ghost predicate AtWork(t: State, stage: Stage) {
    && t.limit == 2 && t.now == 0 && "x" in t.db.rows && t.db.rows.Keys == {"x"}
    && t.db.rows["x"].claim == Claimed("a", LEASE) && !t.db.rows["x"].dispatched
    && t.db.rows["x"].payload.message == Written("x")
    && t.relays == map["a" := Working([t.db.rows["x"].payload], LEASE, stage)]
  }

  lemma Begins(kinds: set<Kind>, appended: bool) returns (t: State)
    ensures Leads(kinds, t) && AtWork(t, if appended then DoPublish else DoAppend)
    ensures t.db.rows["x"].payload.streamAppended == appended
  {
    t := QueuesFirst(kinds, appended);
    hide Leads;
    Takes(kinds, t, "a", ["x"]);
    assert Payloads(t.db.rows, ["x"]) == [t.db.rows["x"].payload];
    t := Taken(t, "a", ["x"], LEASE);
  }

  /** Its next step works. */
  lemma WorksOn(kinds: set<Kind>, t: State, stage: Stage) returns (u: State, next: Stage)
    requires Leads(kinds, t) && AtWork(t, stage) && (stage.DoAppend? || stage.DoPublish? || stage.MarkRead?)
    ensures Leads(kinds, u) && u.db.rows == t.db.rows && AtWork(u, next)
    ensures stage.DoAppend? ==> next == MarkRead && u.appendOks["x"] > 0
    ensures stage.DoPublish? ==> next == Dispatch && u.publishOks["x"] > 0
    ensures stage.MarkRead? ==> next.MarkWrite? && u.appendOks["x"] == t.appendOks["x"]
  {
    hide Leads, Stream;
    Works(kinds, t, "a");
    u := Apply(t, Relayed("a", ItemCall(Ok)));
    next := u.relays["a"].stage;
  }

  /** It has appended, or published, and not recorded it. */
  lemma ReachesMark(kinds: set<Kind>, at: At) returns (t: State, stage: Stage)
    requires at.ReadsMark? || at.WritesMark? || at.Dispatches?
    ensures Leads(kinds, t) && AtWork(t, stage) && AtOf(t.relays["a"]) == at && Done(t, "x") > 0
    ensures stage.MarkRead? || stage.MarkWrite? || stage.Dispatch?
  {
    t := Begins(kinds, at.Dispatches?);
    hide Leads;
    t, stage := WorksOn(kinds, t, if at.Dispatches? then DoPublish else DoAppend);
    if at.WritesMark? { t, stage := WorksOn(kinds, t, stage); }
  }

  /** Once nobody works and the lease is over, another relay does it again. */
  lemma AgainLater(kinds: set<Kind>, t: State)
    requires Leads(kinds, t) && t.relays == map["a" := Waiting] && t.limit > 0 && t.now == 0 && "x" in t.db.rows
    requires !t.db.rows["x"].dispatched && (t.db.rows["x"].claim.Unclaimed? || t.db.rows["x"].claim.until == LEASE)
    requires t.db.rows["x"].payload.message.id == "x" && Done(t, "x") > 0
    ensures Repeats(kinds)
  {
    hide Leads;
    Goes(kinds, t, Elapse(LEASE + 1));
    Again(kinds, Apply(t, Elapse(LEASE + 1)), "b", "x");
  }

  lemma FailedMarkRepeats(kinds: set<Kind>, at: At, fault: Fault)
    requires Fails(at, fault) in kinds && Harmful(Fails(at, fault))
    ensures Repeats(kinds)
  {
    var t, stage := ReachesMark(kinds, at);
    hide Leads, AppendTo, Publish, Payloads, ClaimRows, Stream;
    Goes(kinds, t, Relayed("a", ItemCall(fault)));
    t := Apply(t, Relayed("a", ItemCall(fault)));
    if !at.Dispatches? {
      Works(kinds, t, "a");
      t := Apply(t, Relayed("a", ItemCall(Ok)));
    }
    AgainLater(kinds, t);
  }

  lemma MarkRepeats(kinds: set<Kind>, k: Kind)
    requires k in kinds && Harmful(k) && !k.ClaimsLate? && (k.at.ReadsMark? || k.at.WritesMark? || k.at.Dispatches?)
    ensures Repeats(kinds)
  {
    hide Leads, Repeats;
    match k
    case Fails(at, fault) => FailedMarkRepeats(kinds, at, fault);
    case Crashes(at) =>
      var t, _ := ReachesMark(kinds, at);
      Goes(kinds, t, Relayed("a", RelayCrash));
      AgainLater(kinds, Apply(t, Relayed("a", RelayCrash)));
    case Overruns(at) =>
      var t, _ := ReachesMark(kinds, at);
      Goes(kinds, t, Elapse(LEASE + 1));
      Again(kinds, Apply(t, Elapse(LEASE + 1)), "b", "x");
  }

  // ----- Working on after the lease -----

  lemma LateWorkRepeats(kinds: set<Kind>, k: Kind)
    requires k in kinds && (k == Overruns(Appends) || k == Overruns(Publishes))
    ensures Repeats(kinds)
  {
    var t := Begins(kinds, k.at.Publishes?);
    hide Leads;
    Goes(kinds, t, Elapse(LEASE + 1));
    BothDo(kinds, Apply(t, Elapse(LEASE + 1)), "a", "b", "x");
  }

  lemma LateClaimRepeats(kinds: set<Kind>)
    requires ClaimsLate in kinds
    ensures Repeats(kinds)
  {
    var t := QueuesFirst(kinds, false);
    hide Leads;
    Goes(kinds, t, Relayed("a", Poll));
    t := Apply(t, Relayed("a", Poll));
    Goes(kinds, t, Elapse(LEASE + 1));
    t := Apply(t, Elapse(LEASE + 1));
    Claims(kinds, t, "a", ["x"]);
    assert Payloads(t.db.rows, ["x"]) == [t.db.rows["x"].payload];
    BothDo(kinds, Taken(t, "a", ["x"], LEASE), "a", "b", "x");
  }

  lemma QueuesTwo(kinds: set<Kind>) returns (t: State)
    ensures Leads(kinds, t) && SameButRows(Start(), t)
    ensures t.db.rows == map["x" := Row(OutboxMessage(Written("x"), false), false, Unclaimed),
                             "y" := Row(OutboxMessage(Written("y"), false), false, Unclaimed)]
  {
    t := QueuesFirst(kinds, false);
    assert "x"[0] != "y"[0];
    assert KeyOf(Written("x")) != KeyOf(Written("y")) by {
      assert KeyOf(Written("x"))[5] != KeyOf(Written("y"))[5];
    }
    hide Leads, KeyOf;
    t := Queues(kinds, t, 1, "y", false);
  }

  /** Two rows; the relay could not append the first and is about to give it back. */
  lemma ReachesRelease(kinds: set<Kind>) returns (t: State)
    ensures Leads(kinds, t) && t.limit == 2 && t.now == 0 && "y" in t.db.rows
    ensures t.db.rows["y"] == Row(OutboxMessage(Written("y"), false), false, Claimed("a", LEASE))
    ensures t.relays == map["a" := Working([OutboxMessage(Written("x"), false), OutboxMessage(Written("y"), false)], LEASE, Release)]
  {
    t := QueuesTwo(kinds);
    hide Leads;
    Takes(kinds, t, "a", ["x", "y"]);
    assert Payloads(t.db.rows, ["x", "y"]) == [OutboxMessage(Written("x"), false), OutboxMessage(Written("y"), false)];
    t := Taken(t, "a", ["x", "y"], LEASE);
    Goes(kinds, t, Relayed("a", ItemCall(Lost)));
    t := Apply(t, Relayed("a", ItemCall(Lost)));
  }

  lemma LateReleaseRepeats(kinds: set<Kind>)
    requires Overruns(GivesBack) in kinds
    ensures Repeats(kinds)
  {
    var t := ReachesRelease(kinds);
    hide Leads;
    Goes(kinds, t, Elapse(LEASE + 1));
    t := Apply(t, Elapse(LEASE + 1));
    Works(kinds, t, "a");
    t := Apply(t, Relayed("a", ItemCall(Ok)));
    BothDo(kinds, t, "a", "b", "y");
  }

  // ----- The exact condition -----

  /** Each harmful kind is: some run that shows no other ends with a message successfully appended or published twice. */
  lemma HarmfulRepeats(kinds: set<Kind>, k: Kind)
    requires k in kinds && Harmful(k)
    ensures Repeats(kinds)
  {
    hide Repeats;
    match k
    case ClaimsLate => LateClaimRepeats(kinds);
    case Overruns(at) =>
      if at.Appends? || at.Publishes? { LateWorkRepeats(kinds, k); }
      else if at.GivesBack? { LateReleaseRepeats(kinds); }
      else { MarkRepeats(kinds, k); }
    case _ => MarkRepeats(kinds, k);
  }

  lemma BadRun(kinds: set<Kind>) returns (acts: seq<Action>)
    requires !Harmless(kinds)
    ensures var s := Initial(true, 2, 0); Runs(s, acts) && OnlyKinds(s, acts, kinds) && !AtMostOnce(Exec(s, acts))
  {
    var k :| k in kinds && Harmful(k);
    HarmfulRepeats(kinds, k);
    hide Harmful, Harmless, Runs, Exec, OnlyKinds, AtMostOnce, Initial;
    var t :| Leads(kinds, t) && !AtMostOnce(t);
    acts :| Runs(Start(), acts) && OnlyKinds(Start(), acts, kinds) && Exec(Start(), acts) == t;
  }

  /** For any set of kinds of faults: in every run from an empty system, of any configuration, that shows no harmful fault
      but of these kinds, relays successfully append and publish each message at most once, if and only if none of the
      kinds is harmful. */
  lemma AtMostOnceIff(kinds: set<Kind>)
    ensures Harmless(kinds) <==>
      forall outbox, limit, now, acts ::
        Runs(Initial(outbox, limit, now), acts) && OnlyKinds(Initial(outbox, limit, now), acts, kinds) ==>
        AtMostOnce(Exec(Initial(outbox, limit, now), acts))
  {
    hide Harmless, OnlyKinds, Runs, Exec, Initial;
    if Harmless(kinds) {
      forall outbox, limit, now, acts |
        Runs(Initial(outbox, limit, now), acts) && OnlyKinds(Initial(outbox, limit, now), acts, kinds)
        ensures AtMostOnce(Exec(Initial(outbox, limit, now), acts))
      {
        forall id ensures var s := Exec(Initial(outbox, limit, now), acts); s.appendOks[id] <= 1 && s.publishOks[id] <= 1 {
          RelayedAtMostOnce(outbox, limit, now, acts, kinds, id);
        }
      }
    } else {
      var acts := BadRun(kinds);
    }
  }
}
