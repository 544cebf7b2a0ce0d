/** Exactly once: without harmful faults, and without an append or publish that takes effect unnoticed, senders and relays
    together put each message into its room's stream at most once and publish it at most once. */
module DeliveryOnce {
  import opened Domain
  import opened Outbox
  import opened Delivery
  import opened DeliveryInvariants
  import opened DeliveryLeases
  import Backend

  /** How often a message stands in its room's stream, and among the events. */
  function Streamed(db: Db, m: Message): nat { multiset(Stream(db, m.roomId))[m] }

  function Published(db: Db, m: Message): nat { multiset(db.events)[m] }

  /** An append or a publish that takes effect and is reported failed. */
  predicate Unnoticed(s: State, a: Action) {
    match a
    case Send(_, step) => (step.AppendCall? || step.PublishCall?) && step.fault.Unacked?
    case Relayed(me, step) =>
      var r := RelayOf(s, me);
      step.ItemCall? && step.fault.Unacked? && r.Working? && (r.stage.DoAppend? || r.stage.DoPublish?)
    case _ => false
  }

  /** No harmful fault of a relay, nothing unnoticed, and no recovered page appended again. */
  ghost predicate Clean(s: State, a: Action)
    requires Enabled(s, a)
  {
    Harmless(Shown(s, a)) && !Unnoticed(s, a) && !a.FillAppend?
  }

  ghost predicate CleanRun(s: State, acts: seq<Action>)
    requires Runs(s, acts)
    decreases |acts|
  {
    acts == [] || (Clean(s, acts[0]) && CleanRun(Apply(s, acts[0]), acts[1..]))
  }

  // ----- The invariant -----

  /** What is in the stream is marked, or about to be, if the message has a row; so is what is published. */
  ghost predicate OnceFor(s: State, m: Message) {
    && Streamed(s.db, m) <= 1 && Published(s.db, m) <= 1
    && (m.id in s.db.rows && Streamed(s.db, m) == 1 ==>
          s.db.rows[m.id].payload.streamAppended || exists me :: Marking(s, me, m.id))
    && (m.id in s.db.rows && Published(s.db, m) == 1 ==> s.db.rows[m.id].dispatched || exists me :: Dispatching(s, me, m.id))
  }

  /** The sender has saved its message and not handed it over yet. */
  predicate Holding(pc: Sender) { pc.Appending? || pc.Publishing? || pc.Enqueueing? }

  ghost predicate HeldOnce(db: Db, pc: Sender) {
    Holding(pc) ==>
      && pc.message.id !in db.rows && Published(db, pc.message) == 0
      && (pc.Appending? || (pc.Enqueueing? && !pc.streamAppended) ==> Streamed(db, pc.message) == 0)
  }

  ghost predicate SendersOnce(s: State) {
    && (forall i :: i in s.senders ==> HeldOnce(s.db, s.senders[i]))
    && (forall i, j :: i in s.senders && j in s.senders && i != j && Holding(s.senders[i]) && Holding(s.senders[j]) ==>
          s.senders[i].message.id != s.senders[j].message.id)
  }

  ghost predicate Once(s: State) {
    (forall m :: m in s.db.saved ==> OnceFor(s, m)) && SendersOnce(s)
  }

  // ----- Relays -----

  lemma SameId(db: Db, m: Message, x: Message)
    requires IdsDistinct(db.saved) && m in db.saved && x in db.saved && m.id == x.id
    ensures m == x
  {
    var i :| 0 <= i < |db.saved| && db.saved[i] == m;
    var j :| 0 <= j < |db.saved| && db.saved[j] == x;
  }

  lemma AppendAdds(db: Db, x: Message, m: Message)
    ensures Streamed(AppendTo(db, x.roomId, x), m) == Streamed(db, m) + if m == x then 1 else 0
    ensures Streamed(Publish(db, x), m) == Streamed(db, m) && Published(AppendTo(db, x.roomId, x), m) == Published(db, m)
    ensures Published(Publish(db, x), m) == Published(db, m) + if m == x then 1 else 0
    ensures AppendTo(db, x.roomId, x).saved == db.saved == Publish(db, x).saved
  {
  }

  lemma RowsAddNothing(db: Db, t: Table, m: Message)
    ensures Streamed(db.(rows := t), m) == Streamed(db, m) && Published(db.(rows := t), m) == Published(db, m)
  {
  }

  /** A relay's work on an item adds at most its own message, once, to stream or events. */
  lemma ItemAdds(me: string, db: Db, r: Relay, fault: Fault, m: Message)
    requires r.Working? && r.todo != []
    ensures var (db', _) := ItemNext(me, db, r, fault);
      && Streamed(db', m) == Streamed(db, m) + (if m == r.todo[0].message && r.stage.DoAppend? && !fault.Lost? then 1 else 0)
      && Published(db', m) == Published(db, m) + (if m == r.todo[0].message && r.stage.DoPublish? && !fault.Lost? then 1 else 0)
      && db'.saved == db.saved
  {
    var (db', _) := ItemNext(me, db, r, fault);
    hide Streamed, Published, SetPayload, SetDispatched, DropClaim, AppendTo, Publish;
    match r.stage
    case DoAppend => AppendAdds(db, r.todo[0].message, m);
    case DoPublish => AppendAdds(db, r.todo[0].message, m);
    case _ =>
      assert db' == db.(rows := db'.rows);
      RowsAddNothing(db, db'.rows, m);
  }

  /** Messages a relay is not working on are left as they are. */
  lemma ItemSparesOthers(s: State, me: string, fault: Fault, m: Message)
    requires Orderly(s) && Enabled(s, Relayed(me, ItemCall(fault))) && OnceFor(s, m)
    requires m.id != RelayOf(s, me).todo[0].message.id
    ensures OnceFor(Apply(s, Relayed(me, ItemCall(fault))), m)
  {
    var s', r := Apply(s, Relayed(me, ItemCall(fault))), RelayOf(s, me);
    assert me in s.relays && Exclusive(s.db.rows, me, r);
    ItemStaysExclusive(me, s.db, r, fault);
    ItemAdds(me, s.db, r, fault, m);
    hide Orderly, Exclusive, Streamed, Published, ItemNext;
    if other :| Marking(s, other, m.id) { assert Marking(s', other, m.id); }
    if other :| Dispatching(s, other, m.id) { assert Dispatching(s', other, m.id); }
  }

  /** Nobody else is about to mark the row a relay is working on. */
  lemma OnlyMarker(s: State, me: string, id: string)
    requires Orderly(s) && me in s.relays && s.relays[me].Working? && s.relays[me].todo != []
    requires s.relays[me].todo[0].message.id == id
    ensures forall other :: Marking(s, other, id) || Dispatching(s, other, id) ==> other == me
  {
    var r := s.relays[me];
    assert r.todo[0] in r.todo;
    forall other | Marking(s, other, id) || Dispatching(s, other, id) ensures other == me {
      assert s.relays[other].todo[0] in s.relays[other].todo;
      SoleOwner(s, me, other, r.todo[0], s.relays[other].todo[0]);
    }
  }

  /** The message it works on. */
  lemma ItemKeepsOwn(s: State, me: string, fault: Fault, m: Message)
    requires Orderly(s) && Enabled(s, Relayed(me, ItemCall(fault))) && Clean(s, Relayed(me, ItemCall(fault)))
    requires OnceFor(s, m) && m == RelayOf(s, me).todo[0].message
    ensures OnceFor(Apply(s, Relayed(me, ItemCall(fault))), m)
  {
    var s', r := Apply(s, Relayed(me, ItemCall(fault))), RelayOf(s, me);
    assert me in s.relays && Exclusive(s.db.rows, me, r);
    assert r.todo[0] in r.todo;
    assert Owned(s.db.rows, me, r.until, m.id);
    OnlyMarker(s, me, m.id);
    ItemAdds(me, s.db, r, fault, m);
    ItemShows(s, me, fault);
    hide Orderly, Exclusive, Streamed, Published, Shown, Harmless;
    if r.stage.DoAppend? && fault.Ok? { assert Marking(s', me, m.id); }
    if r.stage.MarkRead? && fault.Ok? { assert Marking(s', me, m.id); }
    if r.stage.DoPublish? && fault.Ok? { assert Dispatching(s', me, m.id); }
  }

  lemma ItemShows(s: State, me: string, fault: Fault)
    requires Enabled(s, Relayed(me, ItemCall(fault))) && Harmless(Shown(s, Relayed(me, ItemCall(fault))))
    ensures var stage := RelayOf(s, me).stage;
      && (stage.MarkRead? ==> fault.Ok?) && (stage.MarkWrite? || stage.Dispatch? ==> !fault.Lost?)
  {
    assert !fault.Ok? ==> Fails(AtOf(RelayOf(s, me)), fault) in Shown(s, Relayed(me, ItemCall(fault)));
  }

  lemma RelayKeepsSenders(s: State, me: string, fault: Fault)
    requires Inv(s) && Orderly(s) && Once(s) && Enabled(s, Relayed(me, ItemCall(fault)))
    ensures SendersOnce(Apply(s, Relayed(me, ItemCall(fault))))
  {
    var s', r := Apply(s, Relayed(me, ItemCall(fault))), RelayOf(s, me);
    assert me in s.relays && Exclusive(s.db.rows, me, r);
    ItemStaysExclusive(me, s.db, r, fault);
    assert r.todo[0] in r.todo;
    assert Owned(s.db.rows, me, r.until, r.todo[0].message.id);
    hide Inv, Orderly, Exclusive, ItemNext, Streamed, Published;
    forall i | i in s'.senders ensures HeldOnce(s'.db, s'.senders[i]) {
      var pc := s.senders[i];
      assert HeldOnce(s.db, pc);
      if Holding(pc) { ItemAdds(me, s.db, r, fault, pc.message); }
    }
  }

  lemma ItemKeepsOnce(s: State, me: string, fault: Fault)
    requires Inv(s) && Orderly(s) && Once(s)
    requires Enabled(s, Relayed(me, ItemCall(fault))) && Clean(s, Relayed(me, ItemCall(fault)))
    ensures Once(Apply(s, Relayed(me, ItemCall(fault))))
  {
    var s', r := Apply(s, Relayed(me, ItemCall(fault))), RelayOf(s, me);
    RelayKeepsSenders(s, me, fault);
    ItemMessageSaved(s, me);
    ItemAdds(me, s.db, r, fault, r.todo[0].message);
    hide Inv, Orderly, Clean, OnceFor, SendersOnce, ItemNext, Streamed, Published;
    forall m | m in s'.db.saved ensures OnceFor(s', m) {
      if m.id == r.todo[0].message.id {
        SameId(s.db, m, r.todo[0].message);
        ItemKeepsOwn(s, me, fault, m);
      } else {
        ItemSparesOthers(s, me, fault, m);
      }
    }
  }

  lemma ItemMessageSaved(s: State, me: string)
    requires Inv(s) && RelayOf(s, me).Working?
    ensures RelayOf(s, me).todo != [] && RelayOf(s, me).todo[0].message in s.db.saved && IdsDistinct(s.db.saved)
  {
    assert RelayTrue(s.db, s.relays[me]);
    assert CopyTrue(s.db, s.relays[me].todo[0]);
  }

  // ----- Senders -----

  /** What a sender's step leaves as it is. */
  lemma SendLeaves(s: State, i: nat, step: SendStep, m: Message)
    requires Enabled(s, Send(i, step)) && !Unnoticed(s, Send(i, step))
    ensures var (s', pc) := (Apply(s, Send(i, step)), SenderOf(s, i));
      && s'.relays == s.relays
      && Streamed(s'.db, m) == Streamed(s.db, m) + (if step == AppendCall(Ok) && m == pc.message then 1 else 0)
      && Published(s'.db, m) == Published(s.db, m) + (if step == PublishCall(Ok) && m == pc.message then 1 else 0)
      && s'.db.rows == (if step.EnqueueCall? && !step.fault.Lost? then Insert(s.db.rows, pc.message, pc.streamAppended) else s.db.rows)
      && (s'.db.saved == s.db.saved || (step.SaveCall? && s'.db.saved == s.db.saved + [pc.message]))
  {
    var pc := SenderOf(s, i);
    if step.AppendCall? || step.PublishCall? { AppendAdds(s.db, pc.message, m); }
    hide Streamed, Published;
  }

  /** A message that is not saved yet has left no trace. */
  lemma Untraced(s: State, m: Message)
    requires Inv(s) && m !in s.db.saved
    ensures Streamed(s.db, m) == 0 && Published(s.db, m) == 0
    ensures (forall x :: x in s.db.saved ==> x.id != m.id) ==> m.id !in s.db.rows
  {
    assert m !in Stream(s.db, m.roomId) && m !in s.db.events;
    if m.id in s.db.rows { assert RowTrue(s.db, m.id, s.db.rows[m.id]); }
  }

  /** Of a sender's step only these lead to a message that is held, always the same one. */
  lemma HoldsOn(outbox: bool, now: int, db: Db, pc: Sender, step: SendStep)
    requires SendReady(pc, step)
    ensures var pc' := SendNext(outbox, now, db, pc, step).1;
      && (step.AppendCall? || step.PublishCall? || step.EnqueueCall? ==> Holding(pc)) && (step.SaveCall? ==> Unsaved(pc))
      && (Holding(pc') ==> pc'.message == pc.message
                           && ((step == SaveCall(Ok) && pc'.Appending? && KeyOf(pc.message) !in db.dedup)
                               || (step == AppendCall(Ok) && pc'.Publishing?)
                               || (step.AppendCall? && !step.fault.Ok? && pc' == Enqueueing(pc.message, false))
                               || (step.PublishCall? && !step.fault.Ok? && pc' == Enqueueing(pc.message, true))))
  {
  }

  lemma SendKeepsOnceFor(s: State, i: nat, step: SendStep, m: Message)
    requires Inv(s) && Once(s) && Enabled(s, Send(i, step)) && !Unnoticed(s, Send(i, step))
    requires m in Apply(s, Send(i, step)).db.saved
    ensures OnceFor(Apply(s, Send(i, step)), m)
  {
    SendLeaves(s, i, step, m);
    HoldsOn(s.outbox, s.now, s.db, SenderOf(s, i), step);
    hide SendNext, Apply, SendReady, Streamed, Published, OnceFor;
    if m in s.db.saved { SavedStaysOnce(s, i, step, m); } else { NewIsOnce(s, i, step, m); }
  }

  lemma NewIsOnce(s: State, i: nat, step: SendStep, m: Message)
    requires Inv(s) && Enabled(s, Send(i, step)) && !Unnoticed(s, Send(i, step))
    requires m !in s.db.saved && m in Apply(s, Send(i, step)).db.saved
    ensures OnceFor(Apply(s, Send(i, step)), m)
  {
    SendLeaves(s, i, step, m);
    HoldsOn(s.outbox, s.now, s.db, SenderOf(s, i), step);
    hide SendNext, Apply, SendReady, Streamed, Published;
    assert i in s.senders && m == SenderOf(s, i).message;
    Untraced(s, m);
  }

  lemma SavedStaysOnce(s: State, i: nat, step: SendStep, m: Message)
    requires Inv(s) && Once(s) && Enabled(s, Send(i, step)) && !Unnoticed(s, Send(i, step)) && m in s.db.saved
    ensures OnceFor(Apply(s, Send(i, step)), m)
  {
    var s', pc := Apply(s, Send(i, step)), SenderOf(s, i);
    SendLeaves(s, i, step, m);
    HoldsOn(s.outbox, s.now, s.db, pc, step);
    assert OnceFor(s, m) && SendersOnce(s);
    if Holding(pc) {
      HeldIsSaved(s, i);
      if m.id == pc.message.id { SameId(s.db, m, pc.message); }
    }
    hide Inv, Once, Streamed, Published, SendNext, SendReady, Apply, Unnoticed, Marking, Dispatching;
    SameMarkers(s, s', m.id);
  }

  lemma SameMarkers(s: State, s': State, id: string)
    requires s'.relays == s.relays
    ensures forall me :: (Marking(s', me, id) <==> Marking(s, me, id)) && (Dispatching(s', me, id) <==> Dispatching(s, me, id))
  {
  }

  lemma HeldIsSaved(s: State, i: nat)
    requires Inv(s) && Holding(SenderOf(s, i))
    ensures SenderOf(s, i).message in s.db.saved && IdsDistinct(s.db.saved)
  {
    assert SenderTrue(s.db, s.senders[i]);
  }

  /** The sender itself. */
  lemma SendKeepsOwn(s: State, i: nat, step: SendStep)
    requires Inv(s) && Once(s) && Enabled(s, Send(i, step)) && !Unnoticed(s, Send(i, step))
    ensures var s' := Apply(s, Send(i, step)); HeldOnce(s'.db, s'.senders[i])
  {
    var s', pc := Apply(s, Send(i, step)), SenderOf(s, i);
    HoldsOn(s.outbox, s.now, s.db, pc, step);
    if Holding(s'.senders[i]) {
      assert s'.senders[i].message == pc.message && i in s.senders && HeldOnce(s.db, pc);
      SendLeaves(s, i, step, pc.message);
      if step.SaveCall? { NotYetSaved(s, i); }
    }
    hide Inv, Once, Streamed, Published, SendNext, SendReady, Apply;
    if Holding(s'.senders[i]) {}
  }

  lemma NotYetSaved(s: State, i: nat)
    requires Inv(s) && i in s.senders && Unsaved(s.senders[i])
    ensures var m := s.senders[i].message; m.id !in s.db.rows && Streamed(s.db, m) == 0 && Published(s.db, m) == 0
  {
    Untraced(s, s.senders[i].message);
  }

  /** The other senders. */
  lemma SendSparesOthers(s: State, i: nat, step: SendStep, j: nat)
    requires Inv(s) && Once(s) && Enabled(s, Send(i, step)) && !Unnoticed(s, Send(i, step)) && j in s.senders && j != i
    ensures var s' := Apply(s, Send(i, step));
      && HeldOnce(s'.db, s.senders[j])
      && (Holding(s.senders[j]) && Holding(s'.senders[i]) ==> s.senders[j].message.id != s'.senders[i].message.id)
  {
    var qc := s.senders[j];
    assert HeldOnce(s.db, qc);
    if Holding(qc) {
      HoldsOn(s.outbox, s.now, s.db, SenderOf(s, i), step);
      HeldIsSaved(s, j);
      HeldApart(s, i, j);
      SendLeaves(s, i, step, qc.message);
    }
    hide Inv, Once, Streamed, Published, OnceFor, SendNext, SendReady;
  }

  /** What a sender holds, no other sender holds or is about to save. */
  lemma HeldApart(s: State, i: nat, j: nat)
    requires IdsOk(s) && SendersOnce(s) && j in s.senders && j != i && Holding(s.senders[j])
    requires s.senders[j].message in s.db.saved
    ensures Holding(SenderOf(s, i)) || Unsaved(SenderOf(s, i)) ==> SenderOf(s, i).message.id != s.senders[j].message.id
  {
  }

  lemma OneMoves(s: State, i: nat, step: SendStep)
    requires Enabled(s, Send(i, step))
    ensures var s' := Apply(s, Send(i, step)); i in s'.senders && s'.senders == s.senders[i := s'.senders[i]]
  {
    hide SendNext, SendReady;
  }

  lemma SendersAssembled(db: Db, senders: map<nat, Sender>, senders': map<nat, Sender>, i: nat)
    requires i in senders' && senders' == senders[i := senders'[i]] && HeldOnce(db, senders'[i])
    requires forall j :: j in senders && j != i ==> HeldOnce(db, senders[j])
    requires forall j :: j in senders && j != i && Holding(senders[j]) && Holding(senders'[i]) ==>
      senders[j].message.id != senders'[i].message.id
    requires forall j, k :: j in senders && k in senders && j != k && Holding(senders[j]) && Holding(senders[k]) ==>
      senders[j].message.id != senders[k].message.id
    ensures forall j :: j in senders' ==> HeldOnce(db, senders'[j])
    ensures forall j, k :: j in senders' && k in senders' && j != k && Holding(senders'[j]) && Holding(senders'[k]) ==>
      senders'[j].message.id != senders'[k].message.id
  {
    hide HeldOnce;
  }

  lemma SendKeepsOnce(s: State, i: nat, step: SendStep)
    requires Inv(s) && Once(s) && Enabled(s, Send(i, step)) && !Unnoticed(s, Send(i, step))
    ensures Once(Apply(s, Send(i, step)))
  {
    var s' := Apply(s, Send(i, step));
    OneMoves(s, i, step);
    SendKeepsOwn(s, i, step);
    hide Inv, OnceFor, HeldOnce, SendNext, SendReady, Enabled, Apply, Holding, Unnoticed;
    forall m | m in s'.db.saved ensures OnceFor(s', m) { SendKeepsOnceFor(s, i, step, m); }
    forall j | j in s.senders && j != i
      ensures HeldOnce(s'.db, s.senders[j])
      ensures Holding(s.senders[j]) && Holding(s'.senders[i]) ==> s.senders[j].message.id != s'.senders[i].message.id
    {
      SendSparesOthers(s, i, step, j);
    }
    SendersAssembled(s'.db, s.senders, s'.senders, i);
  }

  // ----- Everybody else -----

  /** Claiming changes no flag; neither does giving up before a mark; the rest changes no row. */
  lemma OthersKeepOnce(s: State, a: Action)
    requires Orderly(s) && Once(s) && Enabled(s, a) && Clean(s, a) && !a.Send? && !(a.Relayed? && a.relay.ItemCall?)
    ensures Once(Apply(s, a))
  {
    var s' := Apply(s, a);
    OthersLeave(s, a);
    hide Orderly, Clean, Apply, Enabled;
    forall m | m in s'.db.saved ensures OnceFor(s', m) {
      assert OnceFor(s, m) && Streamed(s'.db, m) == Streamed(s.db, m) && Published(s'.db, m) == Published(s.db, m);
      if other :| Marking(s, other, m.id) { assert Marking(s', other, m.id); }
      if other :| Dispatching(s, other, m.id) { assert Dispatching(s', other, m.id); }
    }
    forall i | i in s'.senders ensures HeldOnce(s'.db, s'.senders[i]) { assert HeldOnce(s.db, s.senders[i]); }
  }

  lemma OthersLeave(s: State, a: Action)
    requires Enabled(s, a) && Clean(s, a) && !a.Send? && !(a.Relayed? && a.relay.ItemCall?)
    ensures var s' := Apply(s, a);
      && s'.db.saved == s.db.saved && s'.db.streams == s.db.streams && s'.db.events == s.db.events && s'.senders == s.senders
      && s'.db.rows.Keys == s.db.rows.Keys
      && (forall x :: x in s.db.rows ==> s'.db.rows[x].payload == s.db.rows[x].payload
                                         && s'.db.rows[x].dispatched == s.db.rows[x].dispatched)
      && forall me :: me in s.relays && Marks(s.relays[me]) ==> me in s'.relays && s'.relays[me] == s.relays[me]
  {
    if a.Relayed? && a.relay.RelayCrash? {
      assert Crashes(AtOf(RelayOf(s, a.me))) in Shown(s, a);
    }
  }

  lemma StepKeepsOnce(s: State, a: Action)
    requires Inv(s) && Orderly(s) && Once(s) && Enabled(s, a) && Clean(s, a)
    ensures Once(Apply(s, a))
  {
    if a.Send? { SendKeepsOnce(s, a.i, a.send); }
    else if a.Relayed? && a.relay.ItemCall? { ItemKeepsOnce(s, a.me, a.relay.fault); }
    else { OthersKeepOnce(s, a); }
    hide *;
  }

  lemma {:induction false} RunKeepsOnce(s: State, acts: seq<Action>)
    requires Inv(s) && Orderly(s) && Timely(s) && Once(s) && Runs(s, acts) && CleanRun(s, acts)
    ensures Once(Exec(s, acts))
    decreases |acts|
  {
    hide Inv, Orderly, Timely, Once;
    if acts != [] {
      StepKeepsInv(s, acts[0]);
      InvStore(s);
      StepKeepsTimely(s, acts[0]);
      StepKeepsOrder(s, acts[0]);
      StepKeepsOnce(s, acts[0]);
      hide Enabled, Apply, Clean;
      RunKeepsOnce(Apply(s, acts[0]), acts[1..]);
    }
  }

  /** From an empty system, after every run without harmful faults, unnoticed appends or publishes, and recovered pages, each
      saved message stands at most once in its room's stream and once among the events; an accepted one that the outbox
      does not hold back stands in both exactly once. */
  lemma DeliveredOnce(outbox: bool, limit: nat, now: int, acts: seq<Action>, m: Message)
    requires Runs(Initial(outbox, limit, now), acts) && CleanRun(Initial(outbox, limit, now), acts)
    requires m in Exec(Initial(outbox, limit, now), acts).db.saved
    ensures var s := Exec(Initial(outbox, limit, now), acts);
      && multiset(Stream(s.db, m.roomId))[m] <= 1 && multiset(s.db.events)[m] <= 1
      && (m in s.acked && (m.id in s.db.rows ==> s.db.rows[m.id].dispatched) ==>
            multiset(Stream(s.db, m.roomId))[m] == 1 && multiset(s.db.events)[m] == 1)
  {
    var s0 := Initial(outbox, limit, now);
    assert Inv(s0) && Orderly(s0) && Timely(s0) && Once(s0);
    RunKeepsOnce(s0, acts);
    var s := Exec(s0, acts);
    assert OnceFor(s, m);
    assert Reachable(s);
    hide Inv, Orderly, Timely, Runs, Exec, CleanRun, Reachable;
    if m in s.acked { AcceptedNeverLost(s, m); }
  }
}
