/** What every step of the delivery protocol keeps, and so every run: no acknowledged message is lost, the
    outbox flags are true, what is visible is durable and unique, stored conversations are well formed. */
module DeliveryInvariants {
  import opened Domain
  import opened Outbox
  import opened Delivery
  import opened Text

  // ----- The stores only grow -----

  ghost predicate RowsGrow(t: Table, t': Table) {
    forall id :: id in t ==> id in t' && t'[id].payload.message == t[id].payload.message
  }

  ghost predicate Grows(db: Db, db': Db) {
    && db.saved <= db'.saved
    && db.events <= db'.events
    && RowsGrow(db.rows, db'.rows)
    && (forall room :: Stream(db, room) <= Stream(db', room))
  }

  lemma GrowsTransitive(a: Db, b: Db, c: Db)
    requires Grows(a, b) && Grows(b, c)
    ensures Grows(a, c)
  {
    forall room ensures Stream(a, room) <= Stream(c, room) {
      assert Stream(a, room) <= Stream(b, room) <= Stream(c, room);
    }
  }

  // ----- Facts about one store -----

  /** Appended to its room's stream and published. */
  predicate Delivered(db: Db, m: Message) {
    InStream(db, m) && m in db.events
  }

  /** The row's flags are true. */
  ghost predicate RowTrue(db: Db, id: string, row: Row) {
    && row.payload.message.id == id
    && row.payload.message in db.saved
    && (row.payload.streamAppended ==> InStream(db, row.payload.message))
    && (row.dispatched ==> Delivered(db, row.payload.message))
  }

  /** Whatever can be seen in a stream, in the event stream or in the outbox was saved first. */
  ghost predicate StoreOk(db: Db) {
    && (forall room, m :: m in Stream(db, room) ==> m.roomId == room && m in db.saved)
    && (forall m :: m in db.events ==> m in db.saved)
    && (forall id :: id in db.rows ==> RowTrue(db, id, db.rows[id]))
  }

  ghost predicate IdsDistinct(saved: seq<Message>) {
    forall i, j :: 0 <= i < j < |saved| ==> saved[i].id != saved[j].id
  }

  /** Saved, and either delivered or in the outbox. */
  ghost predicate Tracked(db: Db, m: Message) {
    m in db.saved && (Delivered(db, m) || (m.id in db.rows && db.rows[m.id].payload.message == m))
  }

  // ----- Facts about one process -----

  ghost predicate SenderTrue(db: Db, pc: Sender) {
    match pc
    case Saving(m) => ValidMessage(m) && (m.replyTo != "" ==> HasMessage(db.saved, m.roomId, m.replyTo))
    case Appending(m) => m in db.saved
    case Publishing(m) => m in db.saved && InStream(db, m)
    case Enqueueing(m, flag) => m in db.saved && (flag ==> InStream(db, m))
    case Returned(reply) => reply.Accepted? ==> Tracked(db, reply.message)
    case _ => true
  }

  /** A relay's local copy is about an existing row, and its flag is true too. */
  ghost predicate CopyTrue(db: Db, item: OutboxMessage) {
    && item.message.id in db.rows
    && db.rows[item.message.id].payload.message == item.message
    && item.message in db.saved
    && (item.streamAppended ==> InStream(db, item.message))
  }

  ghost predicate RelayTrue(db: Db, r: Relay) {
    r.Working? ==>
      && r.todo != []
      && (forall item :: item in r.todo ==> CopyTrue(db, item))
      && match r.stage
         case DoAppend => true
         case MarkRead => InStream(db, r.todo[0].message)
         case MarkWrite(copy) => copy == OutboxMessage(r.todo[0].message, true) && InStream(db, r.todo[0].message)
         case DoPublish => InStream(db, r.todo[0].message)
         case Dispatch => Delivered(db, r.todo[0].message)
         case Release => true
  }

  ghost predicate FillTrue(db: Db, left: seq<Message>) {
    forall m :: m in left ==> m in db.saved
  }

  // ----- Growth keeps them -----

  lemma GrowsKeeps(db: Db, db': Db, m: Message)
    requires Grows(db, db')
    ensures m in db.saved ==> m in db'.saved
    ensures InStream(db, m) ==> InStream(db', m)
    ensures Delivered(db, m) ==> Delivered(db', m)
    ensures Tracked(db, m) ==> Tracked(db', m)
  {
    assert Stream(db, m.roomId) <= Stream(db', m.roomId);
  }

  lemma GrowsKeepsParent(db: Db, db': Db, room: string, id: string)
    requires Grows(db, db') && HasMessage(db.saved, room, id)
    ensures HasMessage(db'.saved, room, id)
  {
    var k :| 0 <= k < |db.saved| && db.saved[k].roomId == room && db.saved[k].id == id;
    assert db'.saved[k] == db.saved[k];
  }

  lemma GrowsKeepsSender(db: Db, db': Db, pc: Sender)
    requires Grows(db, db') && SenderTrue(db, pc)
    ensures SenderTrue(db', pc)
  {
    if pc.Saving? && pc.message.replyTo != "" {
      GrowsKeepsParent(db, db', pc.message.roomId, pc.message.replyTo);
    }
    if pc.Saving? || pc.Appending? || pc.Publishing? || pc.Enqueueing? {
      GrowsKeeps(db, db', pc.message);
    }
    if pc.Returned? && pc.reply.Accepted? {
      GrowsKeeps(db, db', pc.reply.message);
    }
  }

  lemma GrowsKeepsCopy(db: Db, db': Db, item: OutboxMessage)
    requires Grows(db, db') && CopyTrue(db, item)
    ensures CopyTrue(db', item)
  {
    GrowsKeeps(db, db', item.message);
  }

  lemma GrowsKeepsRelay(db: Db, db': Db, r: Relay)
    requires Grows(db, db') && RelayTrue(db, r)
    ensures RelayTrue(db', r)
  {
    if r.Working? {
      forall item | item in r.todo ensures CopyTrue(db', item) { GrowsKeepsCopy(db, db', item); }
      GrowsKeeps(db, db', r.todo[0].message);
    }
  }

  // ----- What one call does to a good store -----

  lemma SaveKeepsStore(db: Db, m: Message)
    requires StoreOk(db)
    ensures StoreOk(Save(db, m)) && Grows(db, Save(db, m))
    ensures KeyOf(m) !in db.dedup ==> m in Save(db, m).saved
  {
    var db' := Save(db, m);
    forall x | x in db.saved ensures x in db'.saved {}
    forall id | id in db'.rows ensures RowTrue(db', id, db'.rows[id]) { assert RowTrue(db, id, db.rows[id]); }
    forall room ensures Stream(db', room) == Stream(db, room) {}
  }

  lemma AppendKeepsStore(db: Db, m: Message)
    requires StoreOk(db) && m in db.saved
    ensures StoreOk(AppendTo(db, m.roomId, m)) && Grows(db, AppendTo(db, m.roomId, m)) && InStream(AppendTo(db, m.roomId, m), m)
  {
    var db' := AppendTo(db, m.roomId, m);
    forall room ensures Stream(db', room) == if room == m.roomId then Stream(db, room) + [m] else Stream(db, room) {}
    assert Grows(db, db');
    forall id | id in db'.rows ensures RowTrue(db', id, db'.rows[id]) {
      GrowsKeeps(db, db', db.rows[id].payload.message);
    }
  }

  lemma PublishKeepsStore(db: Db, m: Message)
    requires StoreOk(db) && m in db.saved
    ensures StoreOk(Publish(db, m)) && Grows(db, Publish(db, m)) && m in Publish(db, m).events
  {
    var db' := Publish(db, m);
    forall room ensures Stream(db', room) == Stream(db, room) {}
    forall id | id in db'.rows ensures RowTrue(db', id, db'.rows[id]) {
      GrowsKeeps(db, db', db.rows[id].payload.message);
    }
  }

  /** A change of the table that keeps every row's message and leaves only true flags keeps the store. */
  lemma RowsKeepStore(db: Db, t: Table)
    requires StoreOk(db) && RowsGrow(db.rows, t)
    requires forall id :: id in t ==> RowTrue(db, id, t[id])
    ensures StoreOk(db.(rows := t)) && Grows(db, db.(rows := t))
  {
    var db' := db.(rows := t);
    forall room ensures Stream(db', room) == Stream(db, room) {}
    forall id | id in t ensures RowTrue(db', id, t[id]) { assert RowTrue(db, id, t[id]); }
  }

  // ----- One step of one process -----

  lemma GrowsSelf(db: Db)
    ensures Grows(db, db)
  {
    forall room ensures Stream(db, room) <= Stream(db, room) {}
  }

  lemma EnqueueKeepsStore(db: Db, m: Message, flag: bool)
    requires StoreOk(db) && m in db.saved && (flag ==> InStream(db, m))
    ensures var db' := db.(rows := Insert(db.rows, m, flag)); StoreOk(db') && Grows(db, db')
  {
    var t := Insert(db.rows, m, flag);
    forall id | id in t ensures RowTrue(db, id, t[id]) { if id in db.rows { assert RowTrue(db, id, db.rows[id]); } }
    RowsKeepStore(db, t);
  }

  lemma SenderKeepsStore(outbox: bool, now: int, db: Db, pc: Sender, step: SendStep)
    requires StoreOk(db) && SenderTrue(db, pc) && SendReady(pc, step)
    ensures var db' := SendNext(outbox, now, db, pc, step).0; StoreOk(db') && Grows(db, db')
  {
    GrowsSelf(db);
    match step
    case SaveCall(_) => SaveKeepsStore(db, pc.message); hide StoreOk, Grows;
    case AppendCall(_) => AppendKeepsStore(db, pc.message); hide StoreOk, Grows;
    case PublishCall(_) => PublishKeepsStore(db, pc.message); hide StoreOk, Grows;
    case EnqueueCall(_) => EnqueueKeepsStore(db, pc.message, pc.streamAppended); hide StoreOk, Grows, Insert;
    case _ => hide StoreOk, Grows;
  }

  lemma SenderStep(outbox: bool, now: int, db: Db, pc: Sender, step: SendStep)
    requires StoreOk(db) && IdsDistinct(db.saved) && SenderTrue(db, pc) && SendReady(pc, step)
    ensures var (db', pc') := SendNext(outbox, now, db, pc, step); StoreOk(db') && Grows(db, db') && SenderTrue(db', pc')
  {
    SenderKeepsStore(outbox, now, db, pc, step);
    if step.SaveCall? {
      SaveKeepsStore(db, pc.message);
      hide StoreOk, Grows, IdsDistinct;
    } else if step.AppendCall? {
      AppendKeepsStore(db, pc.message);
      hide StoreOk, Grows, IdsDistinct;
    } else if step.PublishCall? {
      PublishTracks(db, pc.message);
      hide StoreOk, Grows, IdsDistinct, Tracked;
    } else if step.EnqueueCall? {
      EnqueuedIsTracked(db, pc.message, pc.streamAppended);
      hide StoreOk, Grows, IdsDistinct, Tracked, Insert;
    } else {
      hide StoreOk, Grows, IdsDistinct, Tracked, HasMessage, ValidMessage;
    }
  }

  lemma PublishTracks(db: Db, m: Message)
    requires StoreOk(db) && m in db.saved && InStream(db, m)
    ensures Tracked(Publish(db, m), m)
  {
  }

  lemma EnqueuedIsTracked(db: Db, m: Message, flag: bool)
    requires StoreOk(db) && m in db.saved && IdsDistinct(db.saved)
    ensures Tracked(db.(rows := Insert(db.rows, m, flag)), m)
  {
  }

  lemma ClaimKeeps(me: string, limit: nat, now: int, db: Db, until: int, batch: seq<string>)
    requires StoreOk(db) && ClaimAllowed(db.rows, now, limit, batch)
    ensures var db' := db.(rows := ClaimRows(db.rows, Items(batch), me, until));
      StoreOk(db') && Grows(db, db') && RelayTrue(db', StartBatch(Payloads(db.rows, batch), until))
  {
    var t := ClaimRows(db.rows, Items(batch), me, until);
    forall id | id in t ensures RowTrue(db, id, t[id]) { assert RowTrue(db, id, db.rows[id]); }
    RowsKeepStore(db, t);
    var db' := db.(rows := t);
    var todo := Payloads(db.rows, batch);
    forall item | item in todo ensures CopyTrue(db', item) {
      var k :| 0 <= k < |todo| && todo[k] == item;
      assert batch[k] in batch;
      assert RowTrue(db, batch[k], db.rows[batch[k]]);
      GrowsKeeps(db, db', item.message);
    }
    if todo != [] {
      assert CopyTrue(db', todo[0]);
    }
  }

  lemma NextItemTrue(db: Db, r: Relay)
    requires RelayTrue(db, r) && r.Working? && r.todo != []
    ensures RelayTrue(db, NextItem(r))
  {
    forall item | item in r.todo[1..] ensures CopyTrue(db, item) {}
    if r.todo[1..] != [] {
      assert CopyTrue(db, r.todo[1..][0]);
    }
  }

  lemma ItemKeepsStore(me: string, db: Db, r: Relay, fault: Fault)
    requires StoreOk(db) && RelayTrue(db, r) && r.Working? && r.todo != []
    ensures var db' := ItemNext(me, db, r, fault).0; StoreOk(db') && Grows(db, db')
  {
    var m := r.todo[0].message;
    assert CopyTrue(db, r.todo[0]);
    assert RowTrue(db, m.id, db.rows[m.id]);
    GrowsSelf(db);
    match r.stage {
      case DoAppend => AppendKeepsStore(db, m);
      case MarkRead =>
      case MarkWrite(copy) => TableKeeps(db, SetPayload(db.rows, m.id, copy));
      case DoPublish => PublishKeepsStore(db, m);
      case Dispatch => TableKeeps(db, SetDispatched(db.rows, m.id));
      case Release => TableKeeps(db, DropClaim(db.rows, me, m.id));
    }
    hide StoreOk, Grows, SetPayload, SetDispatched, DropClaim, RowTrue;
  }

  lemma ItemKeeps(me: string, db: Db, r: Relay, fault: Fault)
    requires StoreOk(db) && RelayTrue(db, r) && r.Working? && r.todo != []
    ensures var (db', r') := ItemNext(me, db, r, fault); StoreOk(db') && Grows(db, db') && RelayTrue(db', r')
  {
    var (db', r') := ItemNext(me, db, r, fault);
    var m := r.todo[0].message;
    ItemKeepsStore(me, db, r, fault);
    GrowsKeepsRelay(db, db', r);
    if r.stage.Dispatch? || r.stage.Release? {
      NextItemTrue(db, r);
      GrowsKeepsRelay(db, db', NextItem(r));
    }
    assert CopyTrue(db, r.todo[0]);
    if r.stage.DoAppend? { AppendKeepsStore(db, m); }
    if r.stage.DoPublish? { PublishKeepsStore(db, m); }
    hide StoreOk, Grows, SetPayload, SetDispatched, DropClaim, NextItem;
  }

  /** `RowsKeepStore` where at most one row changes. */
  lemma TableKeeps(db: Db, t: Table)
    requires StoreOk(db) && t.Keys == db.rows.Keys
    requires forall id :: id in t ==>
      t[id] == db.rows[id] || (RowTrue(db, id, t[id]) && t[id].payload.message == db.rows[id].payload.message)
    ensures StoreOk(db.(rows := t)) && Grows(db, db.(rows := t))
  {
    forall id | id in db.rows ensures RowTrue(db, id, db.rows[id]) {}
    RowsKeepStore(db, t);
  }

  lemma RelayStepKeeps(me: string, limit: nat, now: int, db: Db, r: Relay, step: RelayStep)
    requires StoreOk(db) && RelayTrue(db, r) && RelayReady(limit, now, db, r, step)
    ensures var (db', r') := RelayNext(me, limit, now, db, r, step); StoreOk(db') && Grows(db, db') && RelayTrue(db', r')
  {
    forall room ensures Stream(db, room) <= Stream(db, room) {}
    match step
    case ClaimCall(batch, _) => ClaimKeeps(me, limit, now, db, r.until, batch);
    case ItemCall(fault) => ItemKeeps(me, db, r, fault);
    case _ =>
  }

  // ----- The whole state -----

  ghost predicate ProcessesTrue(s: State) {
    && (forall i :: i in s.senders ==> SenderTrue(s.db, s.senders[i]))
    && (forall me :: me in s.relays ==> RelayTrue(s.db, s.relays[me]))
    && (forall j :: j in s.fills ==> FillTrue(s.db, s.fills[j]))
    && (forall m :: m in s.acked ==> Tracked(s.db, m))
  }

  /** The message a sender has built but not yet tried to save. */
  predicate Unsaved(pc: Sender) { pc.CheckReply? || pc.Saving? }

  /** Ids are handed out once, so messages built but not saved differ from each other and from saved ones. */
  ghost predicate IdsOk(s: State) {
    && IdsDistinct(s.db.saved)
    && (forall m :: m in s.db.saved ==> m.id in s.used)
    && (forall i :: i in s.senders && Unsaved(s.senders[i]) ==>
          s.senders[i].message.id in s.used && forall m :: m in s.db.saved ==> m.id != s.senders[i].message.id)
    && (forall i, j :: i in s.senders && j in s.senders && i != j && Unsaved(s.senders[i]) && Unsaved(s.senders[j]) ==>
          s.senders[i].message.id != s.senders[j].message.id)
  }

  /** One dedup key per saved message, and no others. */
  ghost predicate KeysOk(db: Db) {
    && (forall i, j :: 0 <= i < j < |db.saved| ==> KeyOf(db.saved[i]) != KeyOf(db.saved[j]))
    && (forall m :: m in db.saved ==> KeyOf(m) in db.dedup)
    && (forall key :: key in db.dedup ==> exists m :: m in db.saved && KeyOf(m) == key)
  }

  /** Every saved message is valid, and answers, if anything, a message of its room saved before it. */
  ghost predicate Threaded(saved: seq<Message>) {
    forall k :: 0 <= k < |saved| ==>
      ValidMessage(saved[k]) && (saved[k].replyTo != "" ==> HasMessage(saved[..k], saved[k].roomId, saved[k].replyTo))
  }

  ghost predicate Inv(s: State) {
    StoreOk(s.db) && ProcessesTrue(s) && IdsOk(s) && KeysOk(s.db) && Threaded(s.db.saved)
  }

  lemma SaveKeepsConversations(db: Db, m: Message)
    requires KeysOk(db) && Threaded(db.saved) && SenderTrue(db, Saving(m))
    ensures KeysOk(Save(db, m)) && Threaded(Save(db, m).saved)
  {
    SaveKeepsKeys(db, m);
    SaveKeepsThreads(db, m);
    hide *;
  }

  lemma SaveKeepsKeys(db: Db, m: Message)
    requires KeysOk(db)
    ensures KeysOk(Save(db, m))
  {
    var db' := Save(db, m);
    if KeyOf(m) !in db.dedup {
      assert m in db'.saved;
      forall key | key in db'.dedup ensures exists x :: x in db'.saved && KeyOf(x) == key {
        if key in db.dedup {
          var x :| x in db.saved && KeyOf(x) == key;
          assert x in db'.saved;
        }
      }
    }
  }

  lemma SaveKeepsThreads(db: Db, m: Message)
    requires Threaded(db.saved) && SenderTrue(db, Saving(m))
    ensures Threaded(Save(db, m).saved)
  {
    var db' := Save(db, m);
    if KeyOf(m) !in db.dedup {
      forall k | 0 <= k < |db'.saved| && db'.saved[k].replyTo != ""
        ensures HasMessage(db'.saved[..k], db'.saved[k].roomId, db'.saved[k].replyTo)
      {
        assert db'.saved[..k] == db.saved[..k];
        assert k == |db.saved| ==> db.saved[..k] == db.saved;
      }
    }
  }

  lemma ProcessesGrow(s: State, db: Db)
    requires ProcessesTrue(s) && Grows(s.db, db)
    ensures ProcessesTrue(s.(db := db))
  {
    forall i | i in s.senders ensures SenderTrue(db, s.senders[i]) { GrowsKeepsSender(s.db, db, s.senders[i]); }
    forall me | me in s.relays ensures RelayTrue(db, s.relays[me]) { GrowsKeepsRelay(s.db, db, s.relays[me]); }
    forall m | m in s.acked ensures Tracked(db, m) { GrowsKeeps(s.db, db, m); }
  }

  lemma SendKeepsIds(s: State, i: nat, step: SendStep)
    requires IdsOk(s) && Enabled(s, Send(i, step))
    ensures IdsOk(Apply(s, Send(i, step)))
  {
    var s' := Apply(s, Send(i, step));
    if step.SaveCall? {
      var m := SenderOf(s, i).message;
      assert i in s.senders && Unsaved(s.senders[i]);
      assert forall x :: x in s'.db.saved ==> x in s.db.saved || x == m;
    } else {
      assert s'.db.saved == s.db.saved;
    }
  }

  lemma SendKeepsProcesses(s: State, i: nat, step: SendStep)
    requires StoreOk(s.db) && ProcessesTrue(s) && IdsDistinct(s.db.saved) && Enabled(s, Send(i, step))
    ensures var s' := Apply(s, Send(i, step)); StoreOk(s'.db) && ProcessesTrue(s') && Grows(s.db, s'.db)
  {
    var pc := SenderOf(s, i);
    assert SenderTrue(s.db, pc);
    var (db', pc') := SendNext(s.outbox, s.now, s.db, pc, step);
    SenderStep(s.outbox, s.now, s.db, pc, step);
    ProcessesGrow(s, db');
    SenderMoves(s.(db := db'), Apply(s, Send(i, step)), i, pc');
  }

  lemma SenderMoves(s: State, s': State, i: nat, pc: Sender)
    requires ProcessesTrue(s) && SenderTrue(s.db, pc)
    requires s'.db == s.db && s'.senders == s.senders[i := pc] && s'.relays == s.relays && s'.fills == s.fills
    requires s'.acked == if pc.Returned? && pc.reply.Accepted? then s.acked + {pc.reply.message} else s.acked
    ensures ProcessesTrue(s')
  {
  }

  lemma SendKeepsConversations(s: State, i: nat, step: SendStep)
    requires KeysOk(s.db) && Threaded(s.db.saved) && Enabled(s, Send(i, step)) && SenderTrue(s.db, SenderOf(s, i))
    ensures var s' := Apply(s, Send(i, step)); KeysOk(s'.db) && Threaded(s'.db.saved)
  {
    var s' := Apply(s, Send(i, step));
    if step.SaveCall? {
      SaveKeepsConversations(s.db, SenderOf(s, i).message);
      assert s'.db == s.db || s'.db == Save(s.db, SenderOf(s, i).message);
    } else {
      assert s'.db.saved == s.db.saved && s'.db.dedup == s.db.dedup;
    }
  }

  lemma RelayKeepsProcesses(s: State, me: string, step: RelayStep)
    requires StoreOk(s.db) && ProcessesTrue(s) && Enabled(s, Relayed(me, step))
    ensures var s' := Apply(s, Relayed(me, step)); StoreOk(s'.db) && ProcessesTrue(s') && Grows(s.db, s'.db)
  {
    var r := RelayOf(s, me);
    assert RelayTrue(s.db, r);
    RelayStepKeeps(me, s.limit, s.now, s.db, r, step);
    ProcessesGrow(s, Apply(s, Relayed(me, step)).db);
  }

  /** Relays and backfills never touch the tables of saved messages. */
  lemma OthersKeepSaved(s: State, a: Action)
    requires Enabled(s, a) && !a.Send?
    ensures var s' := Apply(s, a);
      s'.db.saved == s.db.saved && s'.db.dedup == s.db.dedup && s'.senders == s.senders && s'.used == s.used
  {
    if a.Relayed? {
      RelayKeepsSaved(a.me, s.limit, s.now, s.db, RelayOf(s, a.me), a.relay);
      hide RelayNext, RelayReady;
    }
  }

  lemma RelayKeepsSaved(me: string, limit: nat, now: int, db: Db, r: Relay, step: RelayStep)
    requires RelayReady(limit, now, db, r, step)
    ensures var db' := RelayNext(me, limit, now, db, r, step).0; db'.saved == db.saved && db'.dedup == db.dedup
  {
    if step.ItemCall? { assert r.todo != []; }
  }

  lemma FillKeepsProcesses(s: State, a: Action)
    requires StoreOk(s.db) && ProcessesTrue(s) && Enabled(s, a) && !a.Send? && !a.Relayed?
    ensures var s' := Apply(s, a); StoreOk(s'.db) && ProcessesTrue(s') && Grows(s.db, s'.db)
  {
    forall room ensures Stream(s.db, room) <= Stream(s.db, room) {}
    if a.FillAppend? {
      assert FillTrue(s.db, s.fills[a.j]);
      AppendKeepsStore(s.db, s.fills[a.j][0]);
      ProcessesGrow(s, Apply(s, a).db);
    }
  }

  lemma StepKeepsInv(s: State, a: Action)
    requires Inv(s) && Enabled(s, a)
    ensures Inv(Apply(s, a)) && Grows(s.db, Apply(s, a).db)
  {
    if a.Send? {
      assert SenderTrue(s.db, SenderOf(s, a.i));
      SendKeepsProcesses(s, a.i, a.send);
      SendKeepsIds(s, a.i, a.send);
      SendKeepsConversations(s, a.i, a.send);
    } else {
      OthersKeepSaved(s, a);
      if a.Relayed? {
        RelayKeepsProcesses(s, a.me, a.relay);
      } else {
        FillKeepsProcesses(s, a);
      }
    }
  }

  lemma {:induction false} RunKeepsInv(s: State, acts: seq<Action>)
    requires Inv(s) && Runs(s, acts)
    ensures Inv(Exec(s, acts)) && Grows(s.db, Exec(s, acts).db)
    decreases |acts|
  {
    if acts == [] {
      forall room ensures Stream(s.db, room) <= Stream(s.db, room) {}
    } else {
      var s1 := Apply(s, acts[0]);
      StepKeepsInv(s, acts[0]);
      RunKeepsInv(s1, acts[1..]);
      GrowsTransitive(s.db, s1.db, Exec(s1, acts[1..]).db);
    }
  }

  // ----- The promises, in every reachable state -----

  /** Some run from an empty system ends in `s`. */
  ghost predicate Reachable(s: State) {
    exists outbox: bool, limit: nat, now: int, acts: seq<Action> ::
      Runs(Initial(outbox, limit, now), acts) && s == Exec(Initial(outbox, limit, now), acts)
  }

  lemma ReachableInv(s: State)
    requires Reachable(s)
    ensures Inv(s)
  {
    var outbox: bool, limit: nat, now: int, acts: seq<Action> :|
      Runs(Initial(outbox, limit, now), acts) && s == Exec(Initial(outbox, limit, now), acts);
    assert Inv(Initial(outbox, limit, now));
    RunKeepsInv(Initial(outbox, limit, now), acts);
  }

  /** What a reachable system goes on to do is reachable. */
  lemma ReachableGoesOn(s: State, acts: seq<Action>)
    requires Reachable(s) && Runs(s, acts)
    ensures Reachable(Exec(s, acts))
  {
    var outbox: bool, limit: nat, now: int, first: seq<Action> :|
      Runs(Initial(outbox, limit, now), first) && s == Exec(Initial(outbox, limit, now), first);
    var start := Initial(outbox, limit, now);
    hide Initial;
    RunsConcat(start, first, acts);
    assert Runs(start, first + acts);
  }

  /** Every message a caller was told is accepted is saved, and is either both in its room's stream and in the
      event stream or waits in the outbox, whatever failed, crashed or expired. */
  lemma AcceptedNeverLost(s: State, m: Message)
    requires Reachable(s) && m in s.acked
    ensures m in s.db.saved
    ensures Delivered(s.db, m) || (m.id in s.db.rows && s.db.rows[m.id].payload.message == m && !s.db.rows[m.id].dispatched)
  {
    ReachableInv(s);
    assert Tracked(s.db, m);
    if !Delivered(s.db, m) {
      assert RowTrue(s.db, m.id, s.db.rows[m.id]);
    }
  }

  /** A row's flags are true of the streams. */
  lemma RowFlagsNeverLie(s: State, id: string)
    requires Reachable(s) && id in s.db.rows
    ensures var row := s.db.rows[id];
      && (row.payload.streamAppended ==> InStream(s.db, row.payload.message))
      && (row.dispatched ==> InStream(s.db, row.payload.message) && row.payload.message in s.db.events)
  {
    ReachableInv(s);
    assert RowTrue(s.db, id, s.db.rows[id]);
  }

  /** So is the flag in a relay's own, perhaps stale, copy of a row. */
  lemma CopyFlagsNeverLie(s: State, me: string, item: OutboxMessage)
    requires Reachable(s) && me in s.relays && s.relays[me].Working? && item in s.relays[me].todo
    ensures item.message in s.db.saved && (item.streamAppended ==> InStream(s.db, item.message))
  {
    ReachableInv(s);
    assert RelayTrue(s.db, s.relays[me]);
    assert CopyTrue(s.db, item);
  }

  /** No row is dropped or gets another message, and neither flag goes from true to false. */
  ghost predicate FlagsRise(t: Table, t': Table) {
    forall id :: id in t ==>
      && id in t'
      && t'[id].payload.message == t[id].payload.message
      && (t[id].payload.streamAppended ==> t'[id].payload.streamAppended)
      && (t[id].dispatched ==> t'[id].dispatched)
  }

  lemma ItemRaisesFlags(me: string, db: Db, r: Relay, fault: Fault)
    requires RelayTrue(db, r) && r.Working? && r.todo != []
    ensures FlagsRise(db.rows, ItemNext(me, db, r, fault).0.rows)
  {
    assert CopyTrue(db, r.todo[0]);
  }

  lemma SendRaisesFlags(outbox: bool, now: int, db: Db, pc: Sender, step: SendStep)
    requires SendReady(pc, step)
    ensures FlagsRise(db.rows, SendNext(outbox, now, db, pc, step).0.rows)
  {
  }

  lemma RelayRaisesFlags(me: string, limit: nat, now: int, db: Db, r: Relay, step: RelayStep)
    requires RelayTrue(db, r) && RelayReady(limit, now, db, r, step)
    ensures FlagsRise(db.rows, RelayNext(me, limit, now, db, r, step).0.rows)
  {
    if step.ItemCall? { ItemRaisesFlags(me, db, r, step.fault); }
  }

  lemma StepRaisesFlags(s: State, a: Action)
    requires ProcessesTrue(s) && Enabled(s, a)
    ensures FlagsRise(s.db.rows, Apply(s, a).db.rows)
  {
    if a.Send? {
      SendRaisesFlags(s.outbox, s.now, s.db, SenderOf(s, a.i), a.send);
      hide SendNext, SendReady, FlagsRise, ProcessesTrue;
    } else if a.Relayed? {
      RelayRaisesFlags(a.me, s.limit, s.now, s.db, RelayOf(s, a.me), a.relay);
      hide RelayNext, RelayReady, FlagsRise, ProcessesTrue;
    } else {
      hide ProcessesTrue;
    }
  }

  /** Over any continuation of a run both flags of a row only go from false to true, although marking a row
      appended is an unguarded read followed by a write that two relays may interleave. */
  lemma FlagsOnlyRise(s: State, acts: seq<Action>)
    requires Reachable(s) && Runs(s, acts)
    ensures FlagsRise(s.db.rows, Exec(s, acts).db.rows)
  {
    ReachableInv(s);
    RunRaisesFlags(s, acts);
  }

  lemma {:induction false} RunRaisesFlags(s: State, acts: seq<Action>)
    requires Inv(s) && Runs(s, acts)
    ensures FlagsRise(s.db.rows, Exec(s, acts).db.rows)
    decreases |acts|
  {
    if acts != [] {
      StepKeepsInv(s, acts[0]);
      StepRaisesFlags(s, acts[0]);
      RunRaisesFlags(Apply(s, acts[0]), acts[1..]);
    }
  }

  /** Every entry of a room's stream is an already saved message of that room, and every published event an
      already saved message. */
  lemma VisibleIsDurable(s: State, room: string, m: Message)
    requires Reachable(s)
    ensures m in Stream(s.db, room) ==> m.roomId == room && m in s.db.saved
    ensures m in s.db.events ==> m in s.db.saved
  {
    ReachableInv(s);
  }

  /** No two saved messages share a sender and client message id, or an id, although looking for a duplicate and
      saving are separate steps. */
  lemma SavedOnce(s: State, i: nat, j: nat)
    requires Reachable(s) && i < j < |s.db.saved|
    ensures (s.db.saved[i].senderId, s.db.saved[i].clientMsgId) != (s.db.saved[j].senderId, s.db.saved[j].clientMsgId)
    ensures s.db.saved[i].id != s.db.saved[j].id
  {
    ReachableInv(s);
    assert KeyOf(s.db.saved[i]) != KeyOf(s.db.saved[j]);
  }

  /** A key is taken exactly when a saved message carries it, so nobody is refused as a duplicate of nothing. */
  lemma TakenKeys(s: State, key: string)
    requires Reachable(s)
    ensures key in s.db.dedup <==> exists m :: m in s.db.saved && DedupKey(m.senderId, m.clientMsgId) == key
  {
    ReachableInv(s);
    if m :| m in s.db.saved && DedupKey(m.senderId, m.clientMsgId) == key {
      assert KeyOf(m) in s.db.dedup;
    }
    if key in s.db.dedup {
      var m :| m in s.db.saved && KeyOf(m) == key;
      assert DedupKey(m.senderId, m.clientMsgId) == key;
    }
  }

  /** Two senders without a NUL in their ids share a dedup key only when both ids agree. */
  lemma DedupKeyInjective(sender: string, client: string, sender': string, client': string)
    requires '\0' !in sender && '\0' !in sender'
    ensures DedupKey(sender, client) == DedupKey(sender', client') <==> sender == sender' && client == client'
  {
    if DedupKey(sender, client) == DedupKey(sender', client') {
      SplitUnique(sender, client, sender', client', '\0');
    }
  }

  /** The position of a NUL. */
  lemma NulAt(s: string) returns (k: nat)
    requires '\0' in s
    ensures k < |s| && s[k] == '\0' && s == s[..k] + ['\0'] + s[k + 1..]
  {
    k :| 0 <= k < |s| && s[k] == '\0';
  }

  /** With a NUL in either id some other pair has the same dedup key. */
  lemma NulCollides(sender: string, client: string) returns (sender': string, client': string)
    requires '\0' in sender || '\0' in client
    ensures DedupKey(sender', client') == DedupKey(sender, client) && sender' != sender
  {
    if '\0' in sender {
      var k := NulAt(sender);
      sender', client' := sender[..k], sender[k + 1..] + ['\0'] + client;
      assert sender' + ['\0'] + client' == sender + ['\0'] + client;
    } else {
      var k := NulAt(client);
      sender', client' := sender + ['\0'] + client[..k], client[k + 1..];
      assert sender' + ['\0'] + client' == sender + ['\0'] + client;
    }
  }

  /** A pair of ids shares its dedup key with no other pair if and only if neither id contains a NUL. */
  lemma DedupKeyNeedsNoNul(sender: string, client: string)
    ensures (forall sender', client' :: DedupKey(sender', client') == DedupKey(sender, client) ==>
               sender' == sender && client' == client)
       <==> '\0' !in sender && '\0' !in client
  {
    if '\0' in sender || '\0' in client {
      var _, _ := NulCollides(sender, client);
    } else {
      forall sender', client' | DedupKey(sender', client') == DedupKey(sender, client)
        ensures sender' == sender && client' == client
      {
        OneNul(sender, client, sender', client');
      }
    }
  }

  /** A text with a single NUL splits at it in one way. */
  lemma OneNul(sender: string, client: string, sender': string, client': string)
    requires '\0' !in sender && '\0' !in client && DedupKey(sender', client') == DedupKey(sender, client)
    ensures sender' == sender && client' == client
  {
    var key := DedupKey(sender, client);
    assert key[|sender'|] == '\0';
    assert forall i :: 0 <= i < |key| && i != |sender| ==> key[i] != '\0';
    assert sender' == key[..|sender'|] && client' == key[|sender'| + 1..];
    assert sender == key[..|sender|] && client == key[|sender| + 1..];
  }

  // ----- Reply chains -----

  /** The position of a message with this id before position `k`. */
  function ParentOf(saved: seq<Message>, k: nat): (p: nat)
    requires k < |saved| && saved[k].replyTo != "" && HasMessage(saved[..k], saved[k].roomId, saved[k].replyTo)
    ensures p < k && saved[p].id == saved[k].replyTo && saved[p].roomId == saved[k].roomId
  {
    FindMessage(saved[..k], saved[k].roomId, saved[k].replyTo)
  }

  function FindMessage(saved: seq<Message>, room: string, id: string): (p: nat)
    requires HasMessage(saved, room, id)
    ensures p < |saved| && saved[p].roomId == room && saved[p].id == id
  {
    if saved[0].roomId == room && saved[0].id == id then 0 else
      assert exists k :: 0 <= k < |saved[1..]| && saved[1..][k].roomId == room && saved[1..][k].id == id by {
        var k :| 0 <= k < |saved| && saved[k].roomId == room && saved[k].id == id;
        assert saved[1..][k - 1] == saved[k];
      }
      1 + FindMessage(saved[1..], room, id)
  }

  /** `chain` goes from `k` through ever earlier messages of one room, each the one the last answers, to a message that
      answers nothing. */
  predicate IsThread(saved: seq<Message>, k: nat, chain: seq<nat>)
    requires k < |saved|
  {
    && chain != [] && chain[0] == k
    && (forall i :: 0 <= i < |chain| ==> chain[i] < |saved| && saved[chain[i]].roomId == saved[k].roomId)
    && (forall i, j :: 0 <= i < j < |chain| ==> chain[j] < chain[i])
    && (forall i :: 0 <= i < |chain| - 1 ==> saved[chain[i + 1]].id == saved[chain[i]].replyTo)
    && saved[chain[|chain| - 1]].replyTo == ""
  }

  lemma ThreadLonger(saved: seq<Message>, k: nat, p: nat, rest: seq<nat>)
    requires p < k < |saved| && IsThread(saved, p, rest)
    requires saved[p].id == saved[k].replyTo && saved[p].roomId == saved[k].roomId
    ensures IsThread(saved, k, [k] + rest)
  {
    var chain := [k] + rest;
    assert forall i :: 1 <= i < |chain| ==> chain[i] == rest[i - 1];
  }

  /** From the message at `k` up through what it answers, to a message that answers nothing. */
  function Thread(saved: seq<Message>, k: nat): (chain: seq<nat>)
    requires k < |saved| && Threaded(saved)
    ensures IsThread(saved, k, chain)
    decreases k
  {
    if saved[k].replyTo == "" then [k] else
      var p := ParentOf(saved, k);
      var rest := Thread(saved, p);
      ThreadLonger(saved, k, p, rest);
      [k] + rest
  }

  /** Every saved message is valid; what it answers was saved earlier in its own room; and following the answers
      reaches a first message after fewer steps than there are messages, so reply chains are finite. */
  lemma StoredConversations(s: State, k: nat)
    requires Reachable(s) && k < |s.db.saved|
    ensures ValidMessage(s.db.saved[k])
    ensures Threaded(s.db.saved) && |Thread(s.db.saved, k)| <= k + 1
  {
    ReachableInv(s);
    DescendingIsShort(Thread(s.db.saved, k));
  }

  lemma {:induction false} DescendingIsShort(chain: seq<nat>)
    requires chain != [] && forall i, j :: 0 <= i < j < |chain| ==> chain[j] < chain[i]
    ensures |chain| <= chain[0] + 1
  {
    if |chain| > 1 {
      DescendingIsShort(chain[1..]);
    }
  }
}
