/** Delivery and room membership together: a sender's membership check reads the cached room repository while
    memberships change, and SYNC reads the streams and the message table that senders and relays fill. */
module Conversations {
  import opened Domain
  import opened Delivery
  import opened DeliveryInvariants
  import RoomCache
  import Sync

  datatype State = State(delivery: Delivery.State, rooms: RoomCache.State)

  /** A delivery step, in which a room check sees the answer of some finished Get on that room; or a room step. */
  datatype Action =
    | Deliver(a: Delivery.Action, get: nat)
    | Room(r: RoomCache.Action)

  /** The answer a finished Get gave for the room. */
  predicate GetAnswered(rooms: RoomCache.State, get: nat, room: string, view: set<string>) {
    get in rooms.ops && rooms.ops[get] == RoomCache.Done(RoomCache.Members(room, view))
  }

  predicate ChecksRoom(s: Delivery.State, a: Delivery.Action) {
    a.Send? && a.send.RoomCall? && SenderOf(s, a.i).LoadRoom?
  }

  predicate Enabled(s: State, a: Action) {
    match a
    case Deliver(d, get) =>
      && Delivery.Enabled(s.delivery, d)
      && (ChecksRoom(s.delivery, d) && d.send.view.Some? ==>
            GetAnswered(s.rooms, get, SenderOf(s.delivery, d.i).cmd.roomId, d.send.view.value))
    case Room(r) => RoomCache.Enabled(s.rooms, r)
  }

  function Apply(s: State, a: Action): State
    requires Enabled(s, a)
  {
    match a
    case Deliver(d, _) => s.(delivery := Delivery.Apply(s.delivery, d))
    case Room(r) => s.(rooms := RoomCache.Apply(s.rooms, r))
  }

  predicate Runs(s: State, acts: seq<Action>)
    decreases |acts|
  {
    acts == [] || (Enabled(s, acts[0]) && Runs(Apply(s, acts[0]), acts[1..]))
  }

  function Exec(s: State, acts: seq<Action>): State
    requires Runs(s, acts)
    decreases |acts|
  {
    if acts == [] then s else Exec(Apply(s, acts[0]), acts[1..])
  }

  function Initial(outbox: bool, limit: nat, now: int): State {
    State.State(Delivery.Initial(outbox, limit, now), RoomCache.EMPTY)
  }

  predicate ByMember(rooms: RoomCache.State, m: Message) {
    m.senderId in RoomCache.Of(rooms.primary, m.roomId)
  }

  ghost predicate FromMembers(s: State) {
    && (forall m :: m in s.delivery.db.saved ==> ByMember(s.rooms, m))
    && (forall i :: i in s.delivery.senders && Unsaved(s.delivery.senders[i]) ==> ByMember(s.rooms, s.delivery.senders[i].message))
  }

  ghost predicate SystemInv(s: State) {
    Inv(s.delivery) && RoomCache.Sound(s.rooms) && FromMembers(s)
  }

  lemma CheckedSenderIsMember(s: State, i: nat, step: SendStep, get: nat)
    requires RoomCache.Sound(s.rooms) && Enabled(s, Deliver(Send(i, step), get))
    requires !Unsaved(SenderOf(s.delivery, i)) && Unsaved(SenderOf(Apply(s, Deliver(Send(i, step), get)).delivery, i))
    ensures ByMember(s.rooms, SenderOf(Apply(s, Deliver(Send(i, step), get)).delivery, i).message)
  {
    assert step.RoomCall? && step.view.Some?;
    assert RoomCache.Carries(s.rooms.primary, s.rooms.ops[get]);
  }

  /** Where saved messages and messages about to be saved come from. */
  lemma MessagesComeFrom(outbox: bool, now: int, db: Db, pc: Sender, step: SendStep)
    requires SendReady(pc, step)
    ensures var (db', pc') := SendNext(outbox, now, db, pc, step);
      && (forall m :: m in db'.saved ==> m in db.saved || (Unsaved(pc) && m == pc.message))
      && (Unsaved(pc) && Unsaved(pc') ==> pc'.message == pc.message)
  {
  }

  lemma DeliveryKeepsMembers(s: State, d: Delivery.Action, get: nat)
    requires SystemInv(s) && Enabled(s, Deliver(d, get))
    ensures FromMembers(Apply(s, Deliver(d, get)))
  {
    if d.Send? {
      var s', pc := Apply(s, Deliver(d, get)), SenderOf(s.delivery, d.i);
      if !Unsaved(pc) && Unsaved(SenderOf(s'.delivery, d.i)) {
        CheckedSenderIsMember(s, d.i, d.send, get);
      }
      MessagesComeFrom(s.delivery.outbox, s.delivery.now, s.delivery.db, pc, d.send);
      hide SendNext, SendReady, Inv, RoomCache.Sound, ByMember;
    } else {
      OthersKeepSaved(s.delivery, d);
      hide RelayNext, RelayReady, Inv, RoomCache.Sound, ByMember;
    }
  }

  lemma StepKeepsSystemInv(s: State, a: Action)
    requires SystemInv(s) && Enabled(s, a)
    ensures SystemInv(Apply(s, a))
  {
    match a
    case Deliver(d, get) =>
      StepKeepsInv(s.delivery, d);
      DeliveryKeepsMembers(s, d, get);
    case Room(r) =>
      RoomCache.StepKeepsSound(s.rooms, r);
      RoomCache.PrimaryGrows(s.rooms, r);
  }

  lemma {:induction false} RunKeepsSystemInv(s: State, acts: seq<Action>)
    requires SystemInv(s) && Runs(s, acts)
    ensures SystemInv(Exec(s, acts))
    decreases |acts|
  {
    if acts != [] {
      StepKeepsSystemInv(s, acts[0]);
      RunKeepsSystemInv(Apply(s, acts[0]), acts[1..]);
    }
  }

  ghost predicate Reachable(s: State) {
    exists outbox: bool, limit: nat, now: int, acts: seq<Action> ::
      Runs(Initial(outbox, limit, now), acts) && s == Exec(Initial(outbox, limit, now), acts)
  }

  lemma ReachableSystem(s: State)
    requires Reachable(s)
    ensures SystemInv(s)
  {
    var outbox: bool, limit: nat, now: int, acts: seq<Action> :|
      Runs(Initial(outbox, limit, now), acts) && s == Exec(Initial(outbox, limit, now), acts);
    assert SystemInv(Initial(outbox, limit, now));
    RunKeepsSystemInv(Initial(outbox, limit, now), acts);
  }

  /** Every saved message was written by a member of its room, in the primary, although the check read the cache:
      whatever cache, database or process failed meanwhile. */
  lemma SavedByMembers(s: State, m: Message)
    requires Reachable(s) && m in s.delivery.db.saved
    ensures m.roomId in s.rooms.primary && m.senderId in s.rooms.primary[m.roomId]
  {
    ReachableSystem(s);
  }

  /** What a SYNC answers with comes from the room's stream or from the message table. */
  lemma PageIsFromRoom(room: string, stream: seq<Sync.Entry>, table: seq<Message>, lastAck: string, limit: nat,
                       messages: seq<Sync.StreamMessage>, added: seq<Sync.Entry>, k: nat)
    requires Sync.Ordered(stream) && Sync.KeyedTable(table) && k < |messages|
    requires Sync.AnswersPage(room, stream, table, lastAck, limit, messages, added)
    ensures messages[k].message in Sync.Messages(stream) || (messages[k].message in table && messages[k].message.roomId == room)
  {
    hide Sync.ParseId, Sync.Ordered, Sync.KeyedTable;
    var c := Sync.ParseId(lastAck).value;
    var page := Sync.ReadAfter(stream, c, limit);
    if page != [] {
      Sync.AfterIsSuffix(stream, c);
      assert page[k] in Sync.After(stream, c);
      var i :| 0 <= i < |stream| && stream[i] == page[k];
      assert Sync.Messages(stream)[i] == messages[k].message;
    } else {
      Sync.ListByRoomIsFirstPage(table, room, Sync.Since(lastAck), limit);
      assert Sync.Messages(added)[k] == messages[k].message;
    }
  }

  lemma {:induction false} SavedGrows(s: State, acts: seq<Action>)
    requires SystemInv(s) && Runs(s, acts)
    ensures SystemInv(Exec(s, acts)) && s.delivery.db.saved <= Exec(s, acts).delivery.db.saved
    decreases |acts|
  {
    if acts == [] {
    } else {
      StepKeepsSystemInv(s, acts[0]);
      StepGrows(s, acts[0]);
      hide SystemInv, Enabled, Apply;
      SavedGrows(Apply(s, acts[0]), acts[1..]);
    }
  }

  lemma StepGrows(s: State, a: Action)
    requires SystemInv(s) && Enabled(s, a)
    ensures s.delivery.db.saved <= Apply(s, a).delivery.db.saved
  {
    if a.Deliver? { StepKeepsInv(s.delivery, a.a); }
  }

  /** A SYNC reads the stream, then perhaps the history, then the replies, while everybody else goes on: every message
      that its answer replies to comes along all the same. Each reply id in the answer is a key of the replies, and
      leads to the message with that id. */
  lemma SyncHydratesEverything(s: State, before: seq<Action>, after: seq<Action>, room: string,
                               stream: seq<Sync.Entry>, lastAck: string, limit: nat,
                               messages: seq<Sync.StreamMessage>, replies: map<string, Message>, added: seq<Sync.Entry>)
    requires Reachable(s) && Runs(s, before) && Runs(Exec(s, before), after)
    requires Sync.Ordered(stream) && Sync.Messages(stream) == Stream(s.delivery.db, room)
    requires Sync.AnswersPage(room, stream, Exec(s, before).delivery.db.saved, lastAck, limit, messages, added)
    requires Sync.Hydrates(room, Exec(Exec(s, before), after).delivery.db.saved, messages, replies)
    ensures forall k :: 0 <= k < |messages| && messages[k].message.replyTo != "" ==>
      messages[k].message.replyTo in replies && replies[messages[k].message.replyTo].id == messages[k].message.replyTo
  {
    ReachableSystem(s);
    SavedGrows(s, before);
    SavedGrows(Exec(s, before), after);
    var s1, s2 := Exec(s, before), Exec(Exec(s, before), after);
    SavedIsKeyed(s1);
    hide Reachable, Runs, Exec, Sync.AnswersPage, Sync.KeyedTable, Sync.Ordered;
    forall k | 0 <= k < |messages| && messages[k].message.replyTo != ""
      ensures messages[k].message.replyTo in replies
    {
      PageIsFromRoom(room, stream, s1.delivery.db.saved, lastAck, limit, messages, added, k);
      RoomMessageAnswers(s, s1, room, messages[k].message);
      StillThere(s1.delivery.db.saved, s2.delivery.db.saved, room, messages[k].message.replyTo);
      assert Sync.Answered(messages, messages[k].message.replyTo);
    }
  }

  lemma SavedIsKeyed(s: State)
    requires SystemInv(s)
    ensures Sync.KeyedTable(s.delivery.db.saved)
  {
  }

  lemma StillThere(saved: seq<Message>, saved': seq<Message>, room: string, id: string)
    requires saved <= saved' && HasMessage(saved, room, id)
    ensures HasMessage(saved', room, id)
  {
    var k :| 0 <= k < |saved| && saved[k].roomId == room && saved[k].id == id;
    assert saved'[k] == saved[k];
  }

  /** A message read from the stream at `s`, or from the table later at `s1`, answers a message saved by then. */
  lemma RoomMessageAnswers(s: State, s1: State, room: string, m: Message)
    requires SystemInv(s) && SystemInv(s1) && s.delivery.db.saved <= s1.delivery.db.saved && m.replyTo != ""
    requires m in Stream(s.delivery.db, room) || (m in s1.delivery.db.saved && m.roomId == room)
    ensures HasMessage(s1.delivery.db.saved, room, m.replyTo)
  {
    hide SystemInv;
    var saved := s1.delivery.db.saved;
    if m in Stream(s.delivery.db, room) { StreamIsSaved(s, room, m); }
    var k := PositionOf(saved, m);
    ThreadedAt(s1, k);
    StillThere(saved[..k], saved, room, m.replyTo);
  }

  lemma PositionOf(saved: seq<Message>, m: Message) returns (k: nat)
    requires m in saved
    ensures k < |saved| && saved[k] == m
  {
    k :| 0 <= k < |saved| && saved[k] == m;
  }

  lemma StreamIsSaved(s: State, room: string, m: Message)
    requires SystemInv(s) && m in Stream(s.delivery.db, room)
    ensures m in s.delivery.db.saved && m.roomId == room
  {
  }

  lemma ThreadedAt(s: State, k: nat)
    requires SystemInv(s) && k < |s.delivery.db.saved| && s.delivery.db.saved[k].replyTo != ""
    ensures HasMessage(s.delivery.db.saved[..k], s.delivery.db.saved[k].roomId, s.delivery.db.saved[k].replyTo)
  {
  }

  // ----- A recovery's appends -----

  /** The steps of backfill `j` that append the first `n` messages of a history, and stop. */
  function FillSteps(j: nat, n: nat): seq<Delivery.Action> {
    if n == 0 then [FillCrash(j)] else [FillAppend(j, Ok)] + FillSteps(j, n - 1)
  }

  lemma {:induction false} FillsAreRun(s: Delivery.State, j: nat, room: string, left: seq<Message>, n: nat)
    requires j in s.fills && s.fills[j] == left && n <= |left| && forall m :: m in left ==> m.roomId == room
    ensures Delivery.Runs(s, FillSteps(j, n))
    ensures var t := Delivery.Exec(s, FillSteps(j, n));
      && Stream(t.db, room) == Stream(s.db, room) + left[..n]
      && (forall r :: r != room ==> Stream(t.db, r) == Stream(s.db, r))
      && t.db.saved == s.db.saved && t.db.rows == s.db.rows && t.db.events == s.db.events
    decreases n
  {
    var a := FillSteps(j, n)[0];
    assert FillSteps(j, n)[1..] == if n == 0 then [] else FillSteps(j, n - 1);
    if n == 0 {
      assert left[..n] == [];
    } else {
      assert left[0] in left;
      OneFill(s, j, room, left);
      hide Delivery.Apply, Delivery.Enabled, Stream;
      FillsAreRun(Delivery.Apply(s, a), j, room, left[1..], n - 1);
      assert left[..n] == [left[0]] + left[1..][..n - 1];
    }
  }

  lemma OneFill(s: Delivery.State, j: nat, room: string, left: seq<Message>)
    requires j in s.fills && s.fills[j] == left && left != [] && left[0].roomId == room
    ensures Delivery.Enabled(s, FillAppend(j, Ok))
    ensures var t := Delivery.Apply(s, FillAppend(j, Ok));
      && j in t.fills && t.fills[j] == left[1..]
      && Stream(t.db, room) == Stream(s.db, room) + [left[0]]
      && (forall r :: r != room ==> Stream(t.db, r) == Stream(s.db, r))
      && t.db.saved == s.db.saved && t.db.rows == s.db.rows && t.db.events == s.db.events
  {
  }

  /** What a recovery appends, a beginning of the history it read, is a run of the protocol's backfill: in any state
      the stream of the room, and no other, grows by just that. */
  lemma RecoveryIsRun(s: Delivery.State, j: nat, room: string, history: seq<Message>, added: seq<Sync.Entry>)
    requires j !in s.fills && (forall m :: m in history ==> m in s.db.saved && m.roomId == room)
    requires Sync.Messages(added) <= history
    ensures var acts := [FillRead(j, room, history)] + FillSteps(j, |Sync.Messages(added)|);
      && Delivery.Runs(s, acts)
      && Stream(Delivery.Exec(s, acts).db, room) == Stream(s.db, room) + Sync.Messages(added)
      && (forall r :: r != room ==> Stream(Delivery.Exec(s, acts).db, r) == Stream(s.db, r))
  {
    var n := |Sync.Messages(added)|;
    var a := FillRead(j, room, history);
    FillsAreRun(Delivery.Apply(s, a), j, room, history, n);
    assert ([a] + FillSteps(j, n))[1..] == FillSteps(j, n);
    assert Sync.Messages(added) == history[..n];
  }
}
