/** `SendMessageUseCase.Execute` as one procedure over the stores, proved to be one run of the protocol's sender. */
module SendMessage {
  import opened Domain
  import opened Text
  import opened Outbox
  import opened Delivery
  import opened DeliveryInvariants
  import opened Backend

  /** The stores as the protocol sees them. */
  ghost function Stored(pg: Postgres, valkey: Valkey): Db
    reads pg, valkey
  {
    Db(pg.saved, pg.dedup, RowsOf(pg.outbox), valkey.streams, valkey.events)
  }

  // ----- Following the protocol -----

  lemma {:induction false} OneMore(s: State, acts: seq<Action>, a: Action)
    requires Runs(s, acts) && Enabled(Exec(s, acts), a)
    ensures Runs(s, acts + [a]) && Exec(s, acts + [a]) == Apply(Exec(s, acts), a)
  {
    RunsConcat(s, acts, [a]);
  }

  /** What one call is given: the command, and the answers of the limiter, the room repository and the id generator;
      with `up` no call to a store fails. */
  datatype Given = Given(cmd: Command, allowed: bool, view: Option<set<string>>, id: string, up: bool)

  /** The step is one of the call's own. */
  predicate Fits(g: Given, step: SendStep) {
    match step
    case Begin(cmd, allowed) => cmd == g.cmd && allowed == g.allowed
    case RoomCall(view, id) => view == g.view && id == g.id
    case SenderCrash => false
    case _ => g.up ==> step.fault.Ok?
  }

  /** From `s`, the steps `acts` of sender `i` lead to these stores and this point of its code. */
  ghost predicate SenderAt(s: State, acts: seq<Action>, i: nat, g: Given, db: Db, pc: Sender) {
    Runs(s, acts) && OnlySends(acts, i, g) && Stands(s, Exec(s, acts), acts == [], i, db, pc)
  }

  /** No id is used up before the message is made. */
  ghost predicate Stands(s: State, t: State, unstarted: bool, i: nat, db: Db, pc: Sender) {
    && t.db == db && SenderOf(t, i) == pc && t.outbox == s.outbox && t.now == s.now
    && (unstarted || pc.CheckExists? || pc.LoadRoom? ==> t.used == s.used)
    && (!unstarted && pc.Returned? && pc.reply.Accepted? ==> pc.reply.message in t.acked)
  }

  predicate OnlySends(acts: seq<Action>, i: nat, g: Given) {
    forall a :: a in acts ==> a.Send? && a.i == i && Fits(g, a.send)
  }

  /** Some call to a store has failed, or seemed to. */
  predicate SomeFailed(acts: seq<Action>) {
    exists k :: 0 <= k < |acts| && Failing(acts[k])
  }

  predicate Failing(a: Action) {
    a.Send? && !a.send.Begin? && !a.send.RoomCall? && !a.send.SenderCrash? && !a.send.fault.Ok?
  }

  /** The last step was an enqueue that failed, or seemed to. */
  predicate EnqueueFailed(acts: seq<Action>) {
    acts != [] && var a := acts[|acts| - 1]; a.Send? && a.send.EnqueueCall? && !a.send.fault.Ok?
  }

  lemma LastFailed(acts: seq<Action>, more: seq<Action>, a: Action)
    requires more == acts + [a] && Failing(a)
    ensures SomeFailed(more)
  {
    assert more[|acts|] == a;
  }

  lemma SenderStarts(s: State, i: nat, g: Given)
    ensures SenderAt(s, [], i, g, s.db, SenderOf(s, i))
  {
  }

  lemma SenderSteps(s: State, acts: seq<Action>, i: nat, g: Given, db: Db, pc: Sender, step: SendStep)
    returns (more: seq<Action>)
    requires SenderAt(s, acts, i, g, db, pc) && SendReady(pc, step) && Fits(g, step)
    requires step.Begin? ==> acts == []
    requires step.RoomCall? ==> step.id != "" && step.id !in s.used
    ensures var (db', pc') := SendNext(s.outbox, s.now, db, pc, step); SenderAt(s, more, i, g, db', pc')
    ensures more == acts + [Send(i, step)] && (Failing(Send(i, step)) ==> SomeFailed(more))
  {
    if Failing(Send(i, step)) { LastFailed(acts, acts + [Send(i, step)], Send(i, step)); }
    var t := Exec(s, acts);
    more := acts + [Send(i, step)];
    OneMore(s, acts, Send(i, step));
    hide Runs, Exec, SendNext, SendReady, SomeFailed, Failing;
    assert Apply(t, Send(i, step)).db == SendNext(s.outbox, s.now, db, pc, step).0;
    hide Effect;
    StaysUnused(s.outbox, s.now, db, pc, step);
  }

  /** Only the step that makes the message leaves the part of the code where no id is taken. */
  lemma StaysUnused(outbox: bool, now: int, db: Db, pc: Sender, step: SendStep)
    requires SendReady(pc, step)
    ensures var pc' := SendNext(outbox, now, db, pc, step).1;
      (pc'.CheckExists? ==> step.Begin?) && (pc'.LoadRoom? ==> step.ExistsCall?) && (step.ExistsCall? ==> pc.CheckExists?)
  {
  }

  /** So in any system the procedure runs in, a success it reports is a message that is saved and
      either delivered already or waiting in the outbox. */
  lemma ReplyIsTrue(s: State, acts: seq<Action>, i: nat, g: Given, db: Db, reply: Reply)
    requires Reachable(s) && acts != [] && SenderAt(s, acts, i, g, db, Returned(reply))
    ensures Reachable(Exec(s, acts)) && Exec(s, acts).db == db
    ensures reply.Accepted? ==>
      var m := reply.message;
      m in db.saved && (Delivered(db, m) || (m.id in db.rows && db.rows[m.id].payload.message == m && !db.rows[m.id].dispatched))
  {
    ReachableGoesOn(s, acts);
    if reply.Accepted? { AcceptedNeverLost(Exec(s, acts), reply.message); }
  }

  // ----- The use case when nothing fails -----

  /** Why a message is refused before it is saved, if it is. */
  function RefusalReference(db: Db, g: Given, now: int): Option<Error> {
    if !g.allowed then Some(RateLimited)
    else if DedupKey(g.cmd.senderId, g.cmd.clientMsgId) in db.dedup then Some(Duplicate)
    else if g.view.None? then Some(Upstream)
    else if g.cmd.senderId !in g.view.value then Some(AccessDenied)
    else if g.cmd.replyTo != "" && !HasMessage(db.saved, g.cmd.roomId, g.cmd.replyTo) then Some(NoReplyTarget)
    else if !ValidMessage(MakeMessage(g.cmd, g.id, now)) then Some(Invalid)
    else None
  }

  /** A message that is not a duplicate ends up in the table, its room's stream and the event stream, once each. */
  function StoreReference(db: Db, m: Message): (Db, Reply) {
    if KeyOf(m) in db.dedup then (db, Refused(Duplicate))
    else (Db(db.saved + [m], db.dedup + {KeyOf(m)}, db.rows, db.streams[m.roomId := Stream(db, m.roomId) + [m]], db.events + [m]),
          Accepted(m))
  }

  function SendReference(db: Db, g: Given, now: int): (Db, Reply) {
    match RefusalReference(db, g, now)
    case Some(error) => (db, Refused(error))
    case None => StoreReference(db, MakeMessage(g.cmd, g.id, now))
  }

  /** A command that may be sent: let through by the limiter, new, from a member, answering a message of the room if any,
      complete, not blank, and of at most 4000 bytes. */
  ghost predicate Acceptable(db: Db, g: Given) {
    && g.allowed && g.view.Some? && g.cmd.senderId in g.view.value
    && DedupKey(g.cmd.senderId, g.cmd.clientMsgId) !in db.dedup
    && (g.cmd.replyTo == "" || exists m :: m in db.saved && m.roomId == g.cmd.roomId && m.id == g.cmd.replyTo)
    && g.cmd.roomId != "" && g.cmd.senderId != "" && g.cmd.clientMsgId != ""
    && (exists i :: 0 <= i < |g.cmd.content| && !IsSpace(g.cmd.content[i])) && |Utf8(g.cmd.content)| <= 4000
  }

  /** When nothing fails exactly the acceptable commands are accepted, each as one new row, one entry of its room's stream
      and one event, made of the command, the new id and the time; otherwise nothing changes. */
  lemma AcceptsExactly(db: Db, g: Given, now: int)
    ensures var (db', reply) := SendReference(db, g, now);
      && (reply.Accepted? <==> Acceptable(db, g))
      && (reply.Refused? ==> db' == db)
      && (reply.Accepted? ==>
            var m := Message(g.id, g.cmd.clientMsgId, g.cmd.roomId, g.cmd.senderId, g.cmd.content, g.cmd.replyTo, now);
            && reply.message == m && db'.saved == db.saved + [m] && db'.events == db.events + [m] && db'.rows == db.rows
            && db'.dedup == db.dedup + {DedupKey(g.cmd.senderId, g.cmd.clientMsgId)}
            && db'.streams == db.streams[g.cmd.roomId := Stream(db, g.cmd.roomId) + [m]])
  {
    Utf8RoundTrip(g.cmd.content);
    hide ByteLength, Utf8, DedupKey;
    if HasMessage(db.saved, g.cmd.roomId, g.cmd.replyTo) {
      var k :| 0 <= k < |db.saved| && db.saved[k].roomId == g.cmd.roomId && db.saved[k].id == g.cmd.replyTo;
      assert db.saved[k] in db.saved;
    }
  }

  /** The reason a command is refused for is the first that applies. */
  lemma RefusesFor(db: Db, g: Given, now: int, error: Error)
    requires SendReference(db, g, now).1 == Refused(error)
    ensures error == RateLimited <==> !g.allowed
    ensures error == Duplicate ==> DedupKey(g.cmd.senderId, g.cmd.clientMsgId) in db.dedup
    ensures error == AccessDenied ==> g.view.Some? && g.cmd.senderId !in g.view.value
    ensures error == NoReplyTarget ==> g.cmd.replyTo != "" && !exists m :: m in db.saved && m.roomId == g.cmd.roomId && m.id == g.cmd.replyTo
    ensures error == Upstream ==> g.view.None?
    ensures g.allowed && DedupKey(g.cmd.senderId, g.cmd.clientMsgId) in db.dedup ==> error == Duplicate
  {
    hide ValidMessage, DedupKey;
    if m :| m in db.saved && m.roomId == g.cmd.roomId && m.id == g.cmd.replyTo {
      var k :| 0 <= k < |db.saved| && db.saved[k] == m;
      assert HasMessage(db.saved, g.cmd.roomId, g.cmd.replyTo);
    }
  }

  // ----- The use case -----

  class SendMessageUseCase {
    const pg: Postgres
    const valkey: Valkey
    const hasOutbox: bool

    constructor (pg: Postgres, valkey: Valkey, hasOutbox: bool)
      ensures this.pg == pg && this.valkey == valkey && this.hasOutbox == hasOutbox
    {
      this.pg, this.valkey, this.hasOutbox := pg, valkey, hasOutbox;
    }

    /** Sends a message. The steps taken are a run of sender `i` of the protocol, from any of its states with these
        stores to the state with the stores as they are left, where the sender has returned this reply; and when
        nothing fails the call does what `SendReference` says. */
    method Execute(g: Given, now: int, ghost s: State, ghost i: nat) returns (reply: Reply, ghost acts: seq<Action>)
      requires Sound(pg.outbox) && s.db == Stored(pg, valkey) && s.outbox == hasOutbox && s.now == now
      requires (SenderOf(s, i).Idle? || SenderOf(s, i).Returned?) && g.id != "" && g.id !in s.used
      modifies pg, valkey
      ensures Sound(pg.outbox) && acts != [] && SenderAt(s, acts, i, g, Stored(pg, valkey), Returned(reply))
      ensures g.up ==> (Stored(pg, valkey), reply) == SendReference(s.db, g, now)
      ensures reply.Accepted? ==>
        var m := reply.message;
        && m.id == g.id && m.clientMsgId == g.cmd.clientMsgId && m.roomId == g.cmd.roomId && m.senderId == g.cmd.senderId
        && m.content == g.cmd.content && m.replyTo == g.cmd.replyTo && m.createdAt == now
      ensures reply == Refused(RateLimited) <==> !g.allowed
      ensures reply == Refused(Upstream) ==> g.view.None? || SomeFailed(acts)
    {
      hide SenderAt, SomeFailed, RowsOf, Sound, HasMessage, ValidMessage, SendNext, SendReady;
      var refused;
      refused, acts := Check(g, now, s, i);
      if refused.Some? { return Refused(refused.value), acts; }
      var m := MakeMessage(g.cmd, g.id, now);
      reply, acts := Store(m, s, i, g, acts);
    }

    /** Everything before the message is saved. */
    method Check(g: Given, now: int, ghost s: State, ghost i: nat) returns (refused: Option<Error>, ghost acts: seq<Action>)
      requires s.db == Stored(pg, valkey) && s.outbox == hasOutbox && s.now == now
      requires (SenderOf(s, i).Idle? || SenderOf(s, i).Returned?) && g.id != "" && g.id !in s.used
      ensures acts != []
      ensures SenderAt(s, acts, i, g, s.db,
                       if refused.Some? then Returned(Refused(refused.value)) else Saving(MakeMessage(g.cmd, g.id, now)))
      ensures g.up ==> refused == RefusalReference(s.db, g, now)
      ensures refused == Some(RateLimited) <==> !g.allowed
      ensures refused == Some(Upstream) ==> g.view.None? || SomeFailed(acts)
    {
      SenderStarts(s, i, g);
      hide SenderAt, SomeFailed, RowsOf, HasMessage, ValidMessage;
      var cmd := g.cmd;
      acts := SenderSteps(s, [], i, g, s.db, SenderOf(s, i), Begin(cmd, g.allowed));
      if !g.allowed { return Some(RateLimited), acts; }

      var checked, known := pg.ExistsByClientMsgId(cmd.senderId, cmd.clientMsgId, g.up);
      acts := SenderSteps(s, acts, i, g, s.db, CheckExists(cmd), ExistsCall(checked));
      if !checked.Ok? { return Some(Upstream), acts; }
      if known { return Some(Duplicate), acts; }

      acts := SenderSteps(s, acts, i, g, s.db, LoadRoom(cmd), RoomCall(g.view, g.id));
      if g.view.None? { return Some(Upstream), acts; }
      if cmd.senderId !in g.view.value { return Some(AccessDenied), acts; }

      var m := MakeMessage(cmd, g.id, now);
      if cmd.replyTo != "" {
        var read, found := pg.HasReplyTarget(cmd.roomId, cmd.replyTo, g.up);
        acts := SenderSteps(s, acts, i, g, s.db, CheckReply(m), ReplyCall(read));
        if !read.Ok? { return Some(Upstream), acts; }
        if !found { return Some(NoReplyTarget), acts; }
      }
      if !ValidMessage(m) { return Some(Invalid), acts; }
      return None, acts;
    }

    /** From saving on. */
    method Store(m: Message, ghost s: State, ghost i: nat, g: Given, ghost taken: seq<Action>)
      returns (reply: Reply, ghost acts: seq<Action>)
      requires Sound(pg.outbox) && s.outbox == hasOutbox && m.id != ""
      requires SenderAt(s, taken, i, g, Stored(pg, valkey), Saving(m))
      modifies pg, valkey
      ensures Sound(pg.outbox) && acts != [] && SenderAt(s, acts, i, g, Stored(pg, valkey), Returned(reply))
      ensures g.up ==> (Stored(pg, valkey), reply) == StoreReference(old(Stored(pg, valkey)), m)
      ensures reply.Accepted? ==> reply.message == m
      ensures reply.Refused? ==> reply.error.Duplicate? || (reply.error.Upstream? && SomeFailed(acts))
    {
      hide SenderAt, SomeFailed, RowsOf, Sound;
      acts := taken;
      ghost var before := Stored(pg, valkey);
      var saved, duplicate := pg.Save(m, g.up);
      acts := SenderSteps(s, acts, i, g, before, Saving(m), SaveCall(saved));
      if !saved.Ok? { return Refused(Upstream), acts; }
      if duplicate { return Refused(Duplicate), acts; }
      reply, acts := Spread(m, s, i, g, acts);
    }

    /** Telling the room and the hubs; what fails is left to the relays. */
    method Spread(m: Message, ghost s: State, ghost i: nat, g: Given, ghost taken: seq<Action>)
      returns (reply: Reply, ghost acts: seq<Action>)
      requires Sound(pg.outbox) && s.outbox == hasOutbox && m.id != ""
      requires SenderAt(s, taken, i, g, Stored(pg, valkey), Appending(m))
      modifies pg, valkey
      ensures Sound(pg.outbox) && acts != [] && SenderAt(s, acts, i, g, Stored(pg, valkey), Returned(reply))
      ensures g.up ==> reply == Accepted(m) && Stored(pg, valkey) == Publish(AppendTo(old(Stored(pg, valkey)), m.roomId, m), m)
      ensures reply.Accepted? ==> reply.message == m
      ensures reply.Refused? && hasOutbox ==> EnqueueFailed(acts)
      ensures reply.Refused? ==> reply.error.Duplicate? || (reply.error.Upstream? && SomeFailed(acts))
    {
      hide SenderAt, SomeFailed, RowsOf, Sound;
      ghost var before := Stored(pg, valkey);
      var appended := valkey.AppendMessage(m.roomId, m, g.up);
      acts := SenderSteps(s, taken, i, g, before, Appending(m), AppendCall(appended));
      if !appended.Ok? {
        if !hasOutbox { return Refused(Upstream), acts; }
        reply, acts := Enqueue(m, false, s, i, g, acts);
        return;
      }
      before := Stored(pg, valkey);
      var published := valkey.PublishMessageCreated(m, g.up);
      acts := SenderSteps(s, acts, i, g, before, Publishing(m), PublishCall(published));
      if !published.Ok? {
        if !hasOutbox { return Refused(Upstream), acts; }
        reply, acts := Enqueue(m, true, s, i, g, acts);
        return;
      }
      return Accepted(m), acts;
    }

    /** Hands the message to the relays; the caller succeeds when that does. */
    method Enqueue(m: Message, streamAppended: bool, ghost s: State, ghost i: nat, g: Given, ghost taken: seq<Action>)
      returns (reply: Reply, ghost acts: seq<Action>)
      requires Sound(pg.outbox) && m.id != ""
      requires SenderAt(s, taken, i, g, Stored(pg, valkey), Enqueueing(m, streamAppended))
      modifies pg
      ensures Sound(pg.outbox) && acts != [] && SenderAt(s, acts, i, g, Stored(pg, valkey), Returned(reply))
      ensures reply.Accepted? ==> reply.message == m
      ensures reply.Refused? ==> EnqueueFailed(acts)
      ensures reply.Refused? ==> reply.error.Duplicate? || (reply.error.Upstream? && SomeFailed(acts))
    {
      hide SenderAt, SomeFailed, RowsOf, Sound, Insert;
      ghost var before := Stored(pg, valkey);
      var enqueued := pg.Enqueue(m, streamAppended, g.up);
      acts := SenderSteps(s, taken, i, g, before, Enqueueing(m, streamAppended), EnqueueCall(enqueued));
      if !enqueued.Ok? { return Refused(Upstream), acts; }
      return Accepted(m), acts;
    }
  }
}
