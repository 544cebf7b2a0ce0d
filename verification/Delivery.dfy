/** The send / outbox / relay protocol as a state machine. Every call to Postgres or Valkey is one step that
    works, fails, or fails after taking effect; any process may crash and time may pass between any two steps. */
module Delivery {
  import opened Domain
  import opened Outbox

  // ----- The shared stores -----

  datatype Db = Db(
    saved: seq<Message>,                  // table `messages`, in commit order
    dedup: set<string>,                   // keys of table `message_dedup`
    rows: Table,                          // table `message_outbox`
    streams: map<string, seq<Message>>,   // per room, everything ever appended
    events: seq<Message>)                 // everything ever published

  /** The text that is hashed into a dedup key. */
  function DedupKey(senderId: string, clientMsgId: string): string {
    senderId + ['\0'] + clientMsgId
  }

  function KeyOf(m: Message): string {
    DedupKey(m.senderId, m.clientMsgId)
  }

  /** The transaction of `Save`: the dedup row and the message row, or neither. */
  function Save(db: Db, m: Message): Db {
    if KeyOf(m) in db.dedup then db else db.(saved := db.saved + [m], dedup := db.dedup + {KeyOf(m)})
  }

  function Stream(db: Db, room: string): seq<Message> {
    if room in db.streams then db.streams[room] else []
  }

  function AppendTo(db: Db, room: string, m: Message): Db {
    db.(streams := db.streams[room := Stream(db, room) + [m]])
  }

  function Publish(db: Db, m: Message): Db {
    db.(events := db.events + [m])
  }

  predicate InStream(db: Db, m: Message) {
    m in Stream(db, m.roomId)
  }

  /** The store after a call that would turn `before` into `after`. */
  function Effect(fault: Fault, before: Db, after: Db): Db {
    if fault.Lost? then before else after
  }

  // ----- Senders: one execution of `SendMessageUseCase.Execute` -----

  datatype Command = Command(roomId: string, senderId: string, content: string, clientMsgId: string, replyTo: string)

  datatype Error = RateLimited | Duplicate | AccessDenied | NoReplyTarget | Invalid | Upstream

  datatype Reply = Accepted(message: Message) | Refused(error: Error)

  datatype Sender =
    | Idle
    | CheckExists(cmd: Command)
    | LoadRoom(cmd: Command)
    | CheckReply(message: Message)
    | Saving(message: Message)
    | Appending(message: Message)
    | Publishing(message: Message)
    | Enqueueing(message: Message, streamAppended: bool)
    | Returned(reply: Reply)

  datatype SendStep =
    | Begin(cmd: Command, allowed: bool)
    | ExistsCall(fault: Fault)
    | RoomCall(view: Option<set<string>>, id: string)
    | ReplyCall(fault: Fault)
    | SaveCall(fault: Fault)
    | AppendCall(fault: Fault)
    | PublishCall(fault: Fault)
    | EnqueueCall(fault: Fault)
    | SenderCrash

  predicate SendReady(pc: Sender, step: SendStep) {
    match step
    case Begin(_, _) => pc.Idle? || pc.Returned?
    case ExistsCall(_) => pc.CheckExists?
    case RoomCall(_, _) => pc.LoadRoom?
    case ReplyCall(_) => pc.CheckReply?
    case SaveCall(_) => pc.Saving?
    case AppendCall(_) => pc.Appending?
    case PublishCall(_) => pc.Publishing?
    case EnqueueCall(_) => pc.Enqueueing?
    case SenderCrash => true
  }

  function Validated(m: Message): Sender {
    if ValidMessage(m) then Saving(m) else Returned(Refused(Invalid))
  }

  function MakeMessage(cmd: Command, id: string, now: int): Message {
    Message(id, cmd.clientMsgId, cmd.roomId, cmd.senderId, cmd.content, cmd.replyTo, now)
  }

  /** With no outbox configured a failed append or publish is reported to the caller. */
  function Fallback(outbox: bool, m: Message, streamAppended: bool): Sender {
    if outbox then Enqueueing(m, streamAppended) else Returned(Refused(Upstream))
  }

  function SendNext(outbox: bool, now: int, db: Db, pc: Sender, step: SendStep): (Db, Sender)
    requires SendReady(pc, step)
  {
    match step
    case Begin(cmd, allowed) => (db, if allowed then CheckExists(cmd) else Returned(Refused(RateLimited)))
    case ExistsCall(fault) =>
      (db, if !fault.Ok? then Returned(Refused(Upstream))
           else if DedupKey(pc.cmd.senderId, pc.cmd.clientMsgId) in db.dedup then Returned(Refused(Duplicate))
           else LoadRoom(pc.cmd))
    case RoomCall(view, id) =>
      var m := MakeMessage(pc.cmd, id, now);
      (db, if view.None? then Returned(Refused(Upstream))
           else if m.senderId !in view.value then Returned(Refused(AccessDenied))
           else if m.replyTo != "" then CheckReply(m)
           else Validated(m))
    case ReplyCall(fault) =>
      var m := pc.message;
      (db, if !fault.Ok? then Returned(Refused(Upstream))
           else if !HasMessage(db.saved, m.roomId, m.replyTo) then Returned(Refused(NoReplyTarget))
           else Validated(m))
    case SaveCall(fault) =>
      (Effect(fault, db, Save(db, pc.message)),
       if !fault.Ok? then Returned(Refused(Upstream))
       else if KeyOf(pc.message) in db.dedup then Returned(Refused(Duplicate))
       else Appending(pc.message))
    case AppendCall(fault) =>
      var m := pc.message;
      (Effect(fault, db, AppendTo(db, m.roomId, m)), if fault.Ok? then Publishing(m) else Fallback(outbox, m, false))
    case PublishCall(fault) =>
      var m := pc.message;
      (Effect(fault, db, Publish(db, m)), if fault.Ok? then Returned(Accepted(m)) else Fallback(outbox, m, true))
    case EnqueueCall(fault) =>
      var m := pc.message;
      (Effect(fault, db, db.(rows := Insert(db.rows, m, pc.streamAppended))),
       if fault.Ok? then Returned(Accepted(m)) else Returned(Refused(Upstream)))
    case SenderCrash => (db, Idle)
  }

  // ----- Relays: the ticker loop of `MessageOutboxRelay.Run` -----

  datatype Stage = DoAppend | MarkRead | MarkWrite(copy: OutboxMessage) | DoPublish | Dispatch | Release

  datatype Relay =
    | Waiting
    | Claiming(until: int)
    | Working(todo: seq<OutboxMessage>, until: int, stage: Stage)

  datatype RelayStep =
    | Poll
    | ClaimCall(batch: seq<string>, fault: Fault)
    | ItemCall(fault: Fault)
    | RelayCrash

  /** Thirty seconds, in nanoseconds. */
  const LEASE: int := 30_000_000_000

  function FirstStage(item: OutboxMessage): Stage {
    if item.streamAppended then DoPublish else DoAppend
  }

  function StartBatch(todo: seq<OutboxMessage>, until: int): Relay {
    if todo == [] then Waiting else Working(todo, until, FirstStage(todo[0]))
  }

  function NextItem(r: Relay): Relay
    requires r.Working? && r.todo != []
  {
    StartBatch(r.todo[1..], r.until)
  }

  function Payloads(t: Table, ids: seq<string>): seq<OutboxMessage>
    requires forall id :: id in ids ==> id in t
  {
    seq(|ids|, i requires 0 <= i < |ids| => assert ids[i] in ids; t[ids[i]].payload)
  }

  /** A claim takes any claimable rows, in any order, up to the batch size: locked rows are skipped. */
  predicate ClaimAllowed(t: Table, now: int, limit: nat, batch: seq<string>) {
    |batch| <= limit && Distinct(batch) && forall id :: id in batch ==> id in t && Claimable(t[id], now)
  }

  predicate RelayReady(limit: nat, now: int, db: Db, r: Relay, step: RelayStep) {
    match step
    case Poll => r.Waiting?
    case ClaimCall(batch, _) => r.Claiming? && ClaimAllowed(db.rows, now, limit, batch)
    case ItemCall(_) => r.Working? && r.todo != []
    case RelayCrash => true
  }

  function Items<T>(s: seq<T>): set<T> {
    set x | x in s
  }

  function RelayNext(me: string, limit: nat, now: int, db: Db, r: Relay, step: RelayStep): (Db, Relay)
    requires RelayReady(limit, now, db, r, step)
  {
    match step
    case Poll => (db, Claiming(now + LEASE))
    case ClaimCall(batch, fault) =>
      (Effect(fault, db, db.(rows := ClaimRows(db.rows, Items(batch), me, r.until))),
       if fault.Ok? then StartBatch(Payloads(db.rows, batch), r.until) else Waiting)
    case ItemCall(fault) => ItemNext(me, db, r, fault)
    case RelayCrash => (db, Waiting)
  }

  function ItemNext(me: string, db: Db, r: Relay, fault: Fault): (Db, Relay)
    requires r.Working? && r.todo != []
  {
    var m := r.todo[0].message;
    match r.stage
    case DoAppend => (Effect(fault, db, AppendTo(db, m.roomId, m)), r.(stage := if fault.Ok? then MarkRead else Release))
    case MarkRead =>
      (db, r.(stage := if fault.Ok? && m.id in db.rows
                       then MarkWrite(db.rows[m.id].payload.(streamAppended := true)) else Release))
    case MarkWrite(copy) =>
      (Effect(fault, db, db.(rows := SetPayload(db.rows, m.id, copy))), r.(stage := if fault.Ok? then DoPublish else Release))
    case DoPublish => (Effect(fault, db, Publish(db, m)), r.(stage := if fault.Ok? then Dispatch else Release))
    case Dispatch => (Effect(fault, db, db.(rows := SetDispatched(db.rows, m.id))), NextItem(r))
    case Release => (Effect(fault, db, db.(rows := DropClaim(db.rows, me, m.id))), NextItem(r))
  }

  // ----- The whole system -----

  datatype State = State(
    outbox: bool,                       // is an outbox configured?
    limit: nat,                         // relay batch size
    now: int,
    db: Db,
    used: set<string>,                  // ids the generator has handed out
    senders: map<nat, Sender>,
    relays: map<string, Relay>,         // by relay id
    fills: map<nat, seq<Message>>,      // running SYNC backfills: what is left to append
    acked: set<Message>,                // history: messages `Execute` returned success for
    appendOks: multiset<string>,        // history: relay appends that returned success, by message id
    publishOks: multiset<string>)       // history: relay publishes that returned success, by message id

  datatype Action =
    | Send(i: nat, send: SendStep)
    | Relayed(me: string, relay: RelayStep)
    | FillRead(j: nat, room: string, history: seq<Message>)
    | FillAppend(j: nat, fault: Fault)
    | FillCrash(j: nat)
    | Elapse(d: nat)

  function SenderOf(s: State, i: nat): Sender { if i in s.senders then s.senders[i] else Idle }

  function RelayOf(s: State, me: string): Relay { if me in s.relays then s.relays[me] else Waiting }

  predicate Enabled(s: State, a: Action) {
    match a
    case Send(i, step) => SendReady(SenderOf(s, i), step) && (step.RoomCall? ==> step.id != "" && step.id !in s.used)
    case Relayed(me, step) => RelayReady(s.limit, s.now, s.db, RelayOf(s, me), step)
    case FillRead(j, room, history) => j !in s.fills && forall m :: m in history ==> m in s.db.saved && m.roomId == room
    case FillAppend(j, _) => j in s.fills && s.fills[j] != []
    case FillCrash(j) => true
    case Elapse(_) => true
  }

  function ItemOk(r: Relay, step: RelayStep, stage: Stage): multiset<string> {
    if step.ItemCall? && step.fault.Ok? && r.Working? && r.todo != [] && r.stage == stage
    then multiset{r.todo[0].message.id} else multiset{}
  }

  function Apply(s: State, a: Action): State
    requires Enabled(s, a)
  {
    match a
    case Send(i, step) =>
      var (db, pc) := SendNext(s.outbox, s.now, s.db, SenderOf(s, i), step);
      s.(db := db, senders := s.senders[i := pc],
         used := if step.RoomCall? then s.used + {step.id} else s.used,
         acked := if pc.Returned? && pc.reply.Accepted? then s.acked + {pc.reply.message} else s.acked)
    case Relayed(me, step) =>
      var r := RelayOf(s, me);
      var (db, r') := RelayNext(me, s.limit, s.now, s.db, r, step);
      s.(db := db, relays := s.relays[me := r'],
         appendOks := s.appendOks + ItemOk(r, step, DoAppend),
         publishOks := s.publishOks + ItemOk(r, step, DoPublish))
    case FillRead(j, _, history) => s.(fills := s.fills[j := history])
    case FillAppend(j, fault) =>
      var m := s.fills[j][0];
      s.(db := Effect(fault, s.db, AppendTo(s.db, m.roomId, m)),
         fills := if fault.Ok? then s.fills[j := s.fills[j][1..]] else s.fills - {j})
    case FillCrash(j) => s.(fills := s.fills - {j})
    case Elapse(d) => s.(now := s.now + d)
  }

  const EMPTY_DB := Db([], {}, map[], map[], [])

  function Initial(outbox: bool, limit: nat, now: int): State {
    State(outbox, limit, now, EMPTY_DB, {}, map[], map[], map[], {}, multiset{}, multiset{})
  }

  /** `acts` can be performed one after another from `s`. */
  predicate Runs(s: State, acts: seq<Action>)
    decreases |acts|
  {
    acts == [] || (Enabled(s, acts[0]) && Runs(Apply(s, acts[0]), acts[1..]))
  }

  function Exec(s: State, acts: seq<Action>): State
    requires Runs(s, acts)
    decreases |acts|
  {
    if acts == [] then s else Exec(Apply(s, acts[0]), acts[1..])
  }

  /** Two runs, one after the other, are one run. */
  lemma {:induction false} RunsConcat(s: State, first: seq<Action>, second: seq<Action>)
    requires Runs(s, first) && Runs(Exec(s, first), second)
    ensures Runs(s, first + second) && Exec(s, first + second) == Exec(Exec(s, first), second)
    decreases |first|
  {
    if first == [] {
      assert first + second == second;
    } else {
      assert (first + second)[1..] == first[1..] + second;
      RunsConcat(Apply(s, first[0]), first[1..], second);
    }
  }
}
